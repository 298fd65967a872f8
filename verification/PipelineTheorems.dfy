/**
 What holds in every reachable state of the pipeline, under any interleaving of APIs,
 relays, workers and readers, with crashes anywhere.
 */
module PipelineTheorems {
  import opened Wrappers
  import opened Telemetry
  import opened Queueing
  import opened Fleet
  import opened Pipeline
  import opened PipelineInvariant
  import opened IngestInvariant
  import opened PublishInvariant
  import opened ConsumeInvariant
  import opened CacheInvariant

  ghost predicate Inv(c: Config, s: State) {
    Ingested(s) && Published(s) && Consumed(c, s) && Cached(c, s)
  }

  lemma InitInv(c: Config)
    ensures Ingested(INIT) && Published(INIT)
    ensures Consumed(c, INIT)
    ensures Cached(c, INIT)
  {
  }

  lemma {:induction false} RunInvariant(c: Config, steps: seq<Step>, s: State)
    requires Run(c, INIT, steps, s)
    ensures Inv(c, s)
  {
    if steps == [] {
      InitInv(c);
    } else {
      var n := |steps| - 1;
      var u :| Run(c, INIT, steps[..n], u) && Enabled(u, steps[n]) && s == Next(c, u, steps[n]);
      RunInvariant(c, steps[..n], u);
      IngestedStep(c, u, steps[n]);
      PublishedStep(c, u, steps[n]);
      ConsumedStep(c, u, steps[n]);
      CachedStep(c, u, steps[n]);
    }
  }

  lemma ReachableInvariant(c: Config, s: State)
    requires Reachable(c, s)
    ensures Inv(c, s)
  {
    var steps :| Run(c, INIT, steps, s);
    RunInvariant(c, steps, s);
  }

  // ---------- exactly once ----------

  /** How many commits applied this event. */
  ghost function Applications(history: seq<Commit>, e: EventId): (n: nat) {
    if history == [] then 0
    else
      var k := |history| - 1;
      Applications(history[..k], e) + (if history[k].event == e then 1 else 0)
  }

  lemma {:induction false} NoApplications(history: seq<Commit>, e: EventId)
    requires forall i :: 0 <= i < |history| ==> history[i].event != e
    ensures Applications(history, e) == 0
  {
    if history != [] {
      NoApplications(history[..|history| - 1], e);
    }
  }

  lemma {:induction false} OneApplication(history: seq<Commit>, e: EventId, i: nat)
    requires forall j, k :: 0 <= j < k < |history| ==> history[j].event != history[k].event
    requires i < |history| && history[i].event == e
    ensures Applications(history, e) == 1
  {
    var n := |history| - 1;
    if i < n {
      OneApplication(history[..n], e, i);
    } else {
      NoApplications(history[..n], e);
    }
  }

  /** Nothing left to publish, deliver or acknowledge. */
  ghost predicate Quiescent(s: State) {
    && (forall e :: e in s.db.outbox ==> s.db.outbox[e].publishedAt.Some?)
    && s.bus.delivered == |s.bus.stream|
    && s.bus.pending == map[]
  }

  /** A relay's message carries its outbox event and can be applied. */
  lemma RelayMessage(batches: map<BatchId, BatchRow>, outbox: map<EventId, OutboxRow>, entry: Entry, e: EventId)
    requires OutboxOk(batches, outbox) && EntryOk(outbox, entry)
    requires entry.origin == FromRelay(e)
    ensures e in outbox && Carries(entry.fields, e, outbox[e].aggregateId)
  {
    var row := outbox[e];
    assert OutboxRowOk(batches, row);
    DecodeInvertsEncode(QueueEvent(e, row.eventType, UuidText(row.aggregateId), row.payload));
  }

  /** Any message that carries an outbox event's id was added by a relay for that event. */
  lemma CarrierIsRelay(batches: map<BatchId, BatchRow>, outbox: map<EventId, OutboxRow>, entry: Entry, e: EventId, b: BatchId)
    requires OutboxOk(batches, outbox) && EntryOk(outbox, entry)
    requires Carries(entry.fields, e, b) && e in outbox
    ensures entry.origin == FromRelay(e) && outbox[e].aggregateId == b
  {
    if entry.origin.FromRelay? {
      RelayMessage(batches, outbox, entry, entry.origin.event);
    }
  }

  /** A published event has a message on the stream. */
  lemma PublishedHasCopy(s: State, e: EventId) returns (m: MsgId)
    requires OutboxOk(s.db.batches, s.db.outbox) && CopiesOk(s.bus.stream, s.db.outbox, s.relays, s.aborted)
    requires e in s.db.outbox && s.db.outbox[e].publishedAt.Some?
    ensures m < |s.bus.stream| && s.bus.stream[m].origin == FromRelay(e)
  {
    assert OutboxRowOk(s.db.batches, s.db.outbox[e]);
    CopyExists(s.bus.stream, e);
    m :| 0 <= m < |s.bus.stream| && s.bus.stream[m].origin == FromRelay(e);
  }

  /** An acknowledged relay message has been applied: it is never dead-lettered. */
  lemma AckedRelayIsProcessed(c: Config, s: State, m: MsgId, e: EventId)
    requires OutboxOk(s.db.batches, s.db.outbox) && StreamOk(s.bus.stream, s.db.outbox)
    requires AckedOk(s.db, s.bus) && DeadOk(c, s.db.deadLetters, s.bus)
    requires m < |s.bus.stream| && s.bus.stream[m].origin == FromRelay(e) && m in s.bus.acked
    ensures e in s.db.processed
  {
    RelayMessage(s.db.batches, s.db.outbox, s.bus.stream[m], e);
    DeadIsPoison(c, s.db.deadLetters, s.bus);
    assert IsProcessed(s.db, s.bus, m) || m in s.db.deadLetters;
  }

  /** The commit of an outbox event applied the batch that event announces. */
  lemma CommitOfOutboxEvent(s: State, i: nat)
    requires OutboxOk(s.db.batches, s.db.outbox) && StreamOk(s.bus.stream, s.db.outbox)
    requires HistoryOk(s.history, s.db, s.bus)
    requires i < |s.history| && s.history[i].event in s.db.outbox
    ensures s.history[i].batch.batchId == s.db.outbox[s.history[i].event].aggregateId
    ensures s.history[i].batch.batchId in s.db.batches
    ensures s.db.batches[s.history[i].batch.batchId].payload == s.history[i].batch
  {
    var h := s.history[i];
    assert CommitOk(s.db, s.bus, h);
    CarrierIsRelay(s.db.batches, s.db.outbox, s.bus.stream[h.msg], h.event, h.batch.batchId);
  }

  /** The event announces the batch, and it was applied once, to that batch's stored document. */
  ghost predicate AppliedOnce(s: State, b: BatchId, e: EventId)
    requires b in s.db.batches
  {
    && e in s.db.outbox
    && s.db.outbox[e].aggregateId == b
    && Applications(s.history, e) == 1
    && exists i :: 0 <= i < |s.history| && s.history[i].event == e && s.history[i].batch == s.db.batches[b].payload
  }

  lemma QuiescentEventApplied(c: Config, s: State, e: EventId)
    requires OutboxOk(s.db.batches, s.db.outbox)
    requires Published(s) && Consumed(c, s) && Quiescent(s)
    requires e in s.db.outbox
    ensures e in s.db.processed
  {
    var m := PublishedHasCopy(s, e);
    assert m in s.bus.acked;
    AckedRelayIsProcessed(c, s, m, e);
  }

  lemma ProcessedAppliedOnce(s: State, e: EventId)
    requires OutboxOk(s.db.batches, s.db.outbox) && StreamOk(s.bus.stream, s.db.outbox)
    requires HistoryOk(s.history, s.db, s.bus)
    requires e in s.db.outbox && e in s.db.processed
    ensures s.db.outbox[e].aggregateId in s.db.batches && AppliedOnce(s, s.db.outbox[e].aggregateId, e)
  {
    var i :| 0 <= i < |s.history| && s.history[i].event == e;
    OneApplication(s.history, e, i);
    CommitOfOutboxEvent(s, i);
  }

  /**
   End-to-end exactly-once: once nothing is left to publish, deliver or acknowledge, every
   accepted batch has exactly one outbox event, and that event was applied exactly once, to the
   stored batch.
   */
  lemma ExactlyOnce(c: Config, s: State, b: BatchId)
    requires Reachable(c, s) && Quiescent(s)
    requires b in s.db.batches
    ensures exists e :: AppliedOnce(s, b, e) && forall f :: f in s.db.outbox && s.db.outbox[f].aggregateId == b ==> f == e
  {
    ReachableInvariant(c, s);
    assert HasEvent(s.db.outbox, b);
    var e :| e in s.db.outbox && s.db.outbox[e].aggregateId == b;
    QuiescentEventApplied(c, s, e);
    ProcessedAppliedOnce(s, e);
    assert AppliedOnce(s, b, e);
  }

  /** At no time, quiescent or not, has any event been applied twice. */
  lemma AtMostOnce(c: Config, s: State, e: EventId)
    requires Reachable(c, s)
    ensures Applications(s.history, e) == if e in s.db.processed then 1 else 0
  {
    ReachableInvariant(c, s);
    if e in s.db.processed {
      var i :| 0 <= i < |s.history| && s.history[i].event == e;
      OneApplication(s.history, e, i);
    } else {
      forall i | 0 <= i < |s.history| ensures s.history[i].event != e {
        assert CommitOk(s.db, s.bus, s.history[i]);
      }
      NoApplications(s.history, e);
    }
  }

  // ---------- refinement ----------

  /** The view tables are the sequential fold of a history in which no event repeats. */
  lemma Refinement(c: Config, s: State)
    requires Reachable(c, s)
    ensures s.db.view == Fold(c, s.history)
    ensures forall i, j :: 0 <= i < j < |s.history| ==> s.history[i].event != s.history[j].event
    ensures forall e :: e in s.db.processed <==> exists i :: 0 <= i < |s.history| && s.history[i].event == e
  {
    ReachableInvariant(c, s);
    forall i | 0 <= i < |s.history| ensures s.history[i].event in s.db.processed {
      assert CommitOk(s.db, s.bus, s.history[i]);
    }
  }

  /** The stored incidents are exactly the crossings, each with its first crossing's evidence. */
  lemma Incidents(c: Config, s: State, agent: AgentId, kind: Kind)
    requires Reachable(c, s)
    ensures Key(agent, kind) in s.db.view.incidents <==> exists j: nat :: CrossesAt(c, s.history, agent, kind, j)
    ensures Key(agent, kind) in s.db.view.incidents ==>
              exists k: nat :: IsFirstCrossing(c, s.history, agent, kind, k) &&
                               s.db.view.incidents[Key(agent, kind)] == IncidentOf(c, s.history[k].batch, kind)
  {
    Refinement(c, s);
    IncidentExact(c, s.history, agent, kind);
  }

  // ---------- the tables by the samples ----------

  /**
   There is a `high_cpu` incident for an agent if and only if some committed batch of the agent has a
   latest sample whose cpu meets the threshold; its evidence is the first such sample's.
   */
  lemma CpuIncidents(c: Config, s: State, agent: AgentId)
    requires Reachable(c, s)
    ensures agent + ":high_cpu" in s.db.view.incidents <==> exists j: nat, k: nat :: CpuAt(c, s.history, agent, j, k)
    ensures agent + ":high_cpu" in s.db.view.incidents ==>
              exists j: nat, k: nat ::
                && FirstCpu(c, s.history, agent, j, k)
                && s.db.view.incidents[agent + ":high_cpu"]
                   == Incident(agent, HighCpu, s.history[j].batch.batchId, s.history[j].batch.samples[k].cpu, c.cpuThreshold)
  {
    Refinement(c, s);
    CpuIncidentExact(c, s.history, agent);
  }

  /** The same for `high_memory` and the memory readings. */
  lemma MemoryIncidents(c: Config, s: State, agent: AgentId)
    requires Reachable(c, s)
    ensures agent + ":high_memory" in s.db.view.incidents <==> exists j: nat, k: nat :: MemoryAt(c, s.history, agent, j, k)
    ensures agent + ":high_memory" in s.db.view.incidents ==>
              exists j: nat, k: nat ::
                && FirstMemory(c, s.history, agent, j, k)
                && s.db.view.incidents[agent + ":high_memory"]
                   == Incident(agent, HighMemory, s.history[j].batch.batchId, s.history[j].batch.samples[k].memory, c.memoryThreshold)
  {
    Refinement(c, s);
    MemoryIncidentExact(c, s.history, agent);
  }

  /**
   A fleet row holds the readings of the latest sample of the agent's last committed batch, and the
   fullest of that sample's disks.
   */
  lemma FleetRows(c: Config, s: State, agent: AgentId)
    requires Reachable(c, s)
    ensures agent in s.db.view.fleet <==> exists j :: 0 <= j < |s.history| && s.history[j].batch.agentId == agent
    ensures agent in s.db.view.fleet ==>
              exists j: nat, k: nat ::
                && IsLastOf(s.history, agent, j) && LatestOf(s.history, agent, j, k)
                && RowHolds(s.db.view.fleet[agent], s.history[j].batch.batchId, s.history[j].batch.samples[k])
  {
    Refinement(c, s);
    FleetExact(c, s.history, agent);
    if agent in s.db.view.fleet {
      var j: nat :| IsLastOf(s.history, agent, j) && s.db.view.fleet[agent] == RowOf(s.history[j].batch);
      var k := LatestIndex(s.history[j].batch.samples);
      SomeLatest(s.history[j].batch);
      RowOfLatest(s.history[j].batch, k);
      assert LatestOf(s.history, agent, j, k);
    }
  }

  // ---------- no loss ----------

  /** Where an event or a message can be: nothing is lost, and nothing is in two places. */
  lemma NoLoss(c: Config, s: State)
    requires Reachable(c, s)
    ensures forall e :: e in s.db.outbox ==>
              Unpublished(s.db.outbox, e) || exists m :: 0 <= m < |s.bus.stream| && s.bus.stream[m].origin == FromRelay(e)
    ensures forall m: MsgId :: m < |s.bus.stream| ==>
              (m >= s.bus.delivered && m !in s.bus.pending && m !in s.bus.acked) ||
              (m < s.bus.delivered && (m in s.bus.pending <==> m !in s.bus.acked))
    ensures forall m :: m in s.bus.acked ==>
              IsProcessed(s.db, s.bus, m) || (m in s.db.deadLetters && InDlq(s.bus.dlq, m))
  {
    ReachableInvariant(c, s);
    forall e | e in s.db.outbox && !Unpublished(s.db.outbox, e)
      ensures exists m :: 0 <= m < |s.bus.stream| && s.bus.stream[m].origin == FromRelay(e)
    {
      var m := PublishedHasCopy(s, e);
    }
  }

  /** Stream copies are conserved: committed, aborted, or in an open transaction. */
  lemma StreamCopies(c: Config, s: State, e: EventId)
    requires Reachable(c, s) && e in s.db.outbox
    ensures Copies(s.bus.stream, e)
            == s.db.outbox[e].publicationAttempts + s.aborted[e] + (if InFlight(s.relays, e) then 1 else 0)
    ensures s.db.outbox[e].publicationAttempts == if s.db.outbox[e].publishedAt.Some? then 1 else 0
    ensures forall p, q :: p in s.relays && q in s.relays && e in s.relays[p].rows && e in s.relays[q].rows ==> p == q
  {
    ReachableInvariant(c, s);
    assert OutboxRowOk(s.db.batches, s.db.outbox[e]);
  }

  // ---------- dead letters ----------

  /**
   What the relay published is never dead-lettered; a message recorded in `processed_events` is
   never also a dead letter; a dead letter was delivered at least the configured number of times.
   */
  lemma DeadLetters(c: Config, s: State, m: MsgId)
    requires Reachable(c, s) && m in s.db.deadLetters
    ensures m < |s.bus.stream| && s.bus.stream[m].origin == Foreign
    ensures forall e :: e in s.db.processed ==> s.db.processed[e].msg != m
    ensures PoisonError(s.bus.stream[m].fields) == Some(s.db.deadLetters[m].error)
    ensures var f := s.bus.stream[m].fields;
            && ("event_id" in f ==> s.db.deadLetters[m].event == f["event_id"])
            && ("event_id" !in f ==> s.db.deadLetters[m].event == Plain("unknown"))
            && s.db.deadLetters[m].payload == f
    ensures m in s.bus.deliveries && c.maxDeliveryAttempts <= s.db.deadLetters[m].attempts <= s.bus.deliveries[m]
    ensures InDlq(s.bus.dlq, m)
  {
    ReachableInvariant(c, s);
    assert DeadLetterOk(c, s.bus, m, s.db.deadLetters[m]);
    assert EntryOk(s.db.outbox, s.bus.stream[m]);
    if s.bus.stream[m].origin.FromRelay? {
      RelayMessage(s.db.batches, s.db.outbox, s.bus.stream[m], s.bus.stream[m].origin.event);
    }
    CommittedIsNotPoison(s.history, s.db, s.bus);
    forall e | e in s.db.processed ensures s.db.processed[e].msg != m {
      var i :| 0 <= i < |s.history| && s.history[i].event == e;
      assert CommitOk(s.db, s.bus, s.history[i]);
    }
  }

  /** No stored batch has the id this message names (or it names none). */
  ghost predicate NamesNoBatch(db: Database, f: Fields)
    requires Decodes(f)
  {
    forall b :: b in db.batches ==> EventOf(f).aggregateId != UuidText(b)
  }

  /** The event of a message that alone carries it and names no batch was never committed. */
  lemma MissingBatchUnprocessed(s: State, m: MsgId)
    requires HistoryOk(s.history, s.db, s.bus) && m < |s.bus.stream|
    requires Decodes(s.bus.stream[m].fields) && NamesNoBatch(s.db, s.bus.stream[m].fields)
    requires forall k: MsgId :: k < |s.bus.stream| && k != m && Decodes(s.bus.stream[k].fields) ==>
               EventOf(s.bus.stream[k].fields).eventId != EventOf(s.bus.stream[m].fields).eventId
    ensures !IsProcessed(s.db, s.bus, m)
  {
    var e := EventOf(s.bus.stream[m].fields).eventId;
    forall i | 0 <= i < |s.history| ensures s.history[i].event != e {
      assert CommitOk(s.db, s.bus, s.history[i]);
    }
  }

  /**
   A message of the accepted type that names no stored batch raises an exception the worker does
   not catch. As long as that is so, and no other message carries its event id, it is never
   acknowledged and never dead-lettered, however often it is delivered.
   */
  lemma MissingBatchNeverSettles(c: Config, s: State, m: MsgId)
    requires Reachable(c, s) && m < |s.bus.stream|
    requires PoisonError(s.bus.stream[m].fields).None? && NamesNoBatch(s.db, s.bus.stream[m].fields)
    requires forall k: MsgId :: k < |s.bus.stream| && k != m && Decodes(s.bus.stream[k].fields) ==>
               EventOf(s.bus.stream[k].fields).eventId != EventOf(s.bus.stream[m].fields).eventId
    ensures m !in s.bus.acked && m !in s.db.deadLetters
    ensures !Quiescent(s)
  {
    ReachableInvariant(c, s);
    DeadIsPoison(c, s.db.deadLetters, s.bus);
    MissingBatchUnprocessed(s, m);
  }

  // ---------- tables against each other ----------

  lemma StoredBatch(agents: map<AgentId, AgentRow>, batches: map<BatchId, BatchRow>, batch: TelemetryBatch)
    requires BatchesOk(agents, batches) && batch.batchId in batches && batches[batch.batchId].payload == batch
    ensures batches[batch.batchId].agentId == batch.agentId && batch.agentId in agents
    ensures batches[batch.batchId].observedEnd == RowOf(batch).observedAt
  {
    assert BatchOk(agents, batch.batchId, batches[batch.batchId]);
    LatestIsObservedEnd(batch.samples);
  }

  /** A fleet row names a stored batch of its own agent whose `observed_end` is the row's time. */
  lemma FleetMatchesBatches(c: Config, s: State, agent: AgentId)
    requires Reachable(c, s) && agent in s.db.view.fleet
    ensures var row := s.db.view.fleet[agent];
            && row.lastBatchId in s.db.batches
            && s.db.batches[row.lastBatchId].agentId == agent
            && s.db.batches[row.lastBatchId].observedEnd == row.observedAt
            && agent in s.db.agents
  {
    ReachableInvariant(c, s);
    FleetExact(c, s.history, agent);
    var k: nat :| IsLastOf(s.history, agent, k) && s.db.view.fleet[agent] == RowOf(s.history[k].batch);
    assert CommitOk(s.db, s.bus, s.history[k]);
    StoredBatch(s.db.agents, s.db.batches, s.history[k].batch);
  }

  /** Every incident and every stored batch belongs to a known agent. */
  lemma AgentsExist(c: Config, s: State)
    requires Reachable(c, s)
    ensures forall key :: key in s.db.view.incidents ==>
              && s.db.view.incidents[key].agentId in s.db.agents
              && key == Key(s.db.view.incidents[key].agentId, s.db.view.incidents[key].kind)
    ensures forall b :: b in s.db.batches ==> s.db.batches[b].agentId in s.db.agents
  {
    ReachableInvariant(c, s);
    forall key | key in s.db.view.incidents
      ensures s.db.view.incidents[key].agentId in s.db.agents
      ensures key == Key(s.db.view.incidents[key].agentId, s.db.view.incidents[key].kind)
    {
      IncidentKeys(c, s.history, key);
      var i :| 0 <= i < |s.history| && s.history[i].batch.agentId == s.db.view.incidents[key].agentId;
      assert CommitOk(s.db, s.bus, s.history[i]);
      StoredBatch(s.db.agents, s.db.batches, s.history[i].batch);
    }
    forall b | b in s.db.batches ensures s.db.batches[b].agentId in s.db.agents {
      assert BatchOk(s.db.agents, b, s.db.batches[b]);
    }
  }

  /** However often a batch is sent, it is stored once and answered "accepted" once. */
  lemma AcceptedOnce(c: Config, s: State, b: BatchId)
    requires Reachable(c, s)
    ensures Acceptances(s.responses, b) == if b in s.db.batches then 1 else 0
    ensures forall r :: r in s.responses && r.batchId == b ==> b in s.db.batches
    ensures b in s.db.batches ==> s.db.batches[b].payload.batchId == b
  {
    ReachableInvariant(c, s);
    if b in s.db.batches {
      assert BatchOk(s.db.agents, b, s.db.batches[b]);
    }
  }
}
