/**
 The programs themselves, running against one deployment's state: `ingest_batch`, `publish_once`,
 `handle_message` and their loops as methods that take the pipeline's steps one after the other.
 */
module Deployment {
  import opened Wrappers
  import opened Telemetry
  import opened Queueing
  import opened Fleet
  import opened Pipeline
  import opened ConsumeInvariant
  import opened PipelineTheorems
  import opened Operations
  import CacheTheorems

  // ---------- the page query ----------

  predicate IsOldest(outbox: map<EventId, OutboxRow>, rows: set<EventId>, e: EventId) {
    e in outbox && forall f :: f in rows && f in outbox ==> outbox[e].createdAt <= outbox[f].createdAt
  }

  lemma {:induction false} EarliestExists(outbox: map<EventId, OutboxRow>, rows: set<EventId>)
    requires rows != {} && forall e :: e in rows ==> e in outbox
    ensures exists e :: e in rows && IsOldest(outbox, rows, e)
  {
    var x :| x in rows;
    if rows == {x} {
      assert IsOldest(outbox, rows, x);
    } else {
      var rest := rows - {x};
      EarliestExists(outbox, rest);
      var y :| y in rest && IsOldest(outbox, rest, y);
      var z := if outbox[x].createdAt <= outbox[y].createdAt then x else y;
      assert IsOldest(outbox, rows, z);
    }
  }

  /** ORDER BY created_at LIMIT 100. */
  method FirstPage(outbox: map<EventId, OutboxRow>, available: set<EventId>) returns (rows: seq<EventId>)
    requires forall e :: e in available ==> e in outbox
    ensures IsPage(outbox, available, rows)
  {
    var rest := available;
    rows := [];
    while rest != {} && |rows| < PAGE
      invariant rest <= available && Distinct(rows) && |rows| + |rest| == |available| && |rows| <= PAGE
      invariant forall e :: e in available <==> e in rest || e in rows
      invariant forall e :: e in rest ==> e !in rows
      invariant InCreationOrder(outbox, rows)
      invariant forall e, f :: e in rows && f in rest ==> outbox[e].createdAt <= outbox[f].createdAt
      decreases rest
    {
      EarliestExists(outbox, rest);
      var e :| e in rest && IsOldest(outbox, rest, e);
      rows := rows + [e];
      rest := rest - {e};
    }
  }

  /** After `k` XADDs of a relay's page. */
  ghost function Sent(s: State, p: Proc, rows: seq<EventId>, k: nat): (t: State)
    requires k <= |rows| && forall e :: e in rows ==> e in s.db.outbox
  {
    s.(bus := s.bus.(stream := s.bus.stream + Messages(s.db.outbox, rows[..k])), relays := s.relays[p := RelayTxn(rows, k)])
  }

  lemma MessagesNext(outbox: map<EventId, OutboxRow>, stream: seq<Entry>, rows: seq<EventId>, k: nat)
    requires k < |rows| && forall e :: e in rows ==> e in outbox
    ensures rows[k] in outbox
    ensures stream + Messages(outbox, rows[..k + 1])
         == (stream + Messages(outbox, rows[..k])) + [Entry(FieldsOf(rows[k], outbox[rows[k]]), FromRelay(rows[k]))]
  {
    assert rows[k] in rows;
    assert rows[..k + 1][..k] == rows[..k];
  }

  lemma SentNext(s: State, p: Proc, rows: seq<EventId>, k: nat)
    requires k < |rows| && forall e :: e in rows ==> e in s.db.outbox
    ensures CanRelayXadd(Sent(s, p, rows, k), p)
    ensures RelayXadd(Sent(s, p, rows, k), p) == Sent(s, p, rows, k + 1)
  {
    MessagesNext(s.db.outbox, s.bus.stream, rows, k);
    assert s.relays[p := RelayTxn(rows, k)][p := RelayTxn(rows, k + 1)] == s.relays[p := RelayTxn(rows, k + 1)];
  }

  lemma SentAll(s: State, p: Proc, rows: seq<EventId>, at: int)
    requires p !in s.relays && forall e :: e in rows ==> e in s.db.outbox
    ensures CanRelayCommit(Sent(s, p, rows, |rows|), p)
    ensures RelayCommit(Sent(s, p, rows, |rows|), p, at) == PublishedRows(s, rows, at)
  {
    assert rows[..|rows|] == rows;
    assert s.relays[p := RelayTxn(rows, |rows|)] - {p} == s.relays;
  }

  lemma PageCanLock(s: State, p: Proc, rows: seq<EventId>)
    requires p !in s.relays && IsPage(s.db.outbox, Available(s), rows)
    ensures CanRelayLock(s, p, rows)
    ensures RelayLock(s, p, rows) == Sent(s, p, rows, 0)
  {
    forall e | e in rows ensures Unpublished(s.db.outbox, e) && !RowLocked(s.relays, e) {
      assert e in Available(s);
    }
    assert s.bus.stream + [] == s.bus.stream;
  }

  // ---------- draining the outbox ----------

  function UnpublishedRows(s: State): (r: set<EventId>) {
    set e | e in s.db.outbox && Unpublished(s.db.outbox, e)
  }

  lemma {:induction false} DistinctSize<T>(xs: seq<T>)
    requires Distinct(xs)
    ensures |set x | x in xs| == |xs|
  {
    if xs != [] {
      var k := |xs| - 1;
      DistinctSize(xs[..k]);
      assert (set x | x in xs) == (set x | x in xs[..k]) + {xs[k]};
    }
  }

  /** With no other relay running, a poll publishes the whole page and nothing else. */
  lemma PageIsPublished(s: State, rows: seq<EventId>, at: int)
    requires s.relays == map[] && IsPage(s.db.outbox, Available(s), rows)
    ensures UnpublishedRows(PublishedRows(s, rows, at)) == UnpublishedRows(s) - (set e | e in rows)
    ensures |UnpublishedRows(PublishedRows(s, rows, at))| == if |UnpublishedRows(s)| < PAGE then 0 else |UnpublishedRows(s)| - PAGE
  {
    assert Available(s) == UnpublishedRows(s);
    DistinctSize(rows);
    assert (set e | e in rows) <= UnpublishedRows(s);
  }

  /** Only messages of outbox events were added, and outbox rows marked. */
  ghost predicate OnlyPublishes(s: State, t: State) {
    && t == s.(db := s.db.(outbox := t.db.outbox), bus := s.bus.(stream := t.bus.stream))
    && s.bus.stream <= t.bus.stream
    && (forall i :: |s.bus.stream| <= i < |t.bus.stream| ==> t.bus.stream[i].origin.FromRelay?)
    && t.db.outbox.Keys == s.db.outbox.Keys
  }

  lemma OnlyPublishesTwice(s: State, t: State, u: State)
    requires OnlyPublishes(s, t) && OnlyPublishes(t, u)
    ensures OnlyPublishes(s, u)
  {
  }

  lemma PublishOnlyPublishes(s: State, rows: seq<EventId>, at: int)
    requires forall e :: e in rows ==> e in s.db.outbox
    ensures OnlyPublishes(s, PublishedRows(s, rows, at))
  {
  }

  // ---------- handling one message ----------

  /** The worker has taken the head of its queue and is in this phase; nothing else changed. */
  ghost function At(s: State, w: Proc, ph: Phase): (t: State)
    requires w in s.workers && s.workers[w].queue != []
  {
    s.(workers := s.workers[w := Worker(s.workers[w].queue[1..], ph)])
  }

  lemma AtNext(s: State, w: Proc, ph: Phase, next: Phase)
    requires w in s.workers && s.workers[w].queue != []
    ensures SetPhase(At(s, w, ph), w, next) == At(s, w, next)
    ensures At(s, w, ph).workers - {w} == s.workers - {w}
  {
    var queue := s.workers[w].queue[1..];
    assert s.workers[w := Worker(queue, ph)][w := Worker(queue, next)] == s.workers[w := Worker(queue, next)];
  }

  lemma BeginAlone(s: State, w: Proc)
    requires CanHandle(s, w)
    ensures CanWorkerBegin(s, w)
    ensures var m := s.workers[w].queue[0];
            WorkerBegin(s, w) == At(s, w, BeginPhase(s.db.processed, m, s.bus.stream[m].fields))
  {
  }

  lemma UpsertAlone(s: State, w: Proc, ph: Phase)
    requires w in s.workers && s.workers[w].queue != [] && Alone(s.workers, w) && ph.Loaded?
    ensures CanWorkerUpsert(At(s, w, ph), w)
  {
  }

  /** In a reachable state a stored document is a valid batch, so loading it succeeds. */
  lemma LoadAlone(c: Config, s: State, w: Proc, m: MsgId, event: QueueEvent)
    requires w in s.workers && s.workers[w].queue != [] && Reachable(c, At(s, w, Inserted(m, event)))
    ensures CanWorkerLoad(At(s, w, Inserted(m, event)), w) <==> NamedBatch(s.db, event).Some?
    ensures NamedBatch(s.db, event).Some? ==>
              WorkerLoad(At(s, w, Inserted(m, event)), w) == At(s, w, Loaded(m, event, NamedBatch(s.db, event).value))
  {
    var t := At(s, w, Inserted(m, event));
    ReachableInvariant(c, t);
    if event.aggregateId.UuidText? && event.aggregateId.id in s.db.batches {
      StoredDoc(s.db.agents, s.db.batches, event.aggregateId.id);
      AtNext(s, w, Inserted(m, event), Loaded(m, event, NamedBatch(s.db, event).value));
    }
  }

  ghost function WithCommit(c: Config, s: State, w: Proc, m: MsgId, e: EventId, batch: TelemetryBatch): (t: State) {
    s.(db := AppliedDb(c, s.db, w, m, e, batch), history := s.history + [Commit(e, m, batch)])
  }

  lemma CommitAlone(c: Config, s: State, w: Proc, ph: Phase)
    requires w in s.workers && s.workers[w].queue != [] && ph.MemoryDone?
    requires ph.newCpu == Opens(c, s.db.view.incidents, ph.batch, HighCpu)
    requires ph.newMemory == Opens(c, s.db.view.incidents, ph.batch, HighMemory)
    ensures CanWorkerCommit(At(s, w, ph), w)
    ensures WorkerCommit(c, At(s, w, ph), w)
         == At(WithCommit(c, s, w, ph.msg, ph.event.eventId, ph.batch), w, Applied(ph.msg))
  {
    StagedIsApply(c, s.db.view, ph);
    AtNext(s, w, ph, Applied(ph.msg));
  }

  lemma ApplyExact(c: Config, v: View, b: TelemetryBatch)
    ensures forall k: nat :: IsLatest(b.samples, k) ==> Absorbs(c, v, b, b.samples[k], ApplyBatch(c, v, b))
  {
    forall k: nat | IsLatest(b.samples, k) ensures Absorbs(c, v, b, b.samples[k], ApplyBatch(c, v, b)) {
      ApplyBatchExact(c, v, b, k);
    }
  }

  /** Where a failed message ends: below the limit nothing but the worker moves. */
  ghost function FailedEnd(c: Config, s: State, w: Proc, m: MsgId, error: ErrorType): (t: State)
    requires w in s.workers && s.workers[w].queue != [] && m < |s.bus.stream|
  {
    var f := s.bus.stream[m].fields;
    var n := DeliveryAttempts(s.bus, m);
    if n < c.maxDeliveryAttempts then At(s, w, Ready)
    else At(s, w, Ready).(db := DeadLetteredDb(s.db, m, error, n, f),
                          bus := Acknowledge(s.bus.(dlq := s.bus.dlq + [DlqEntry(m, error, f)]), m))
  }

  ghost function AppliedEnd(s: State, w: Proc, m: MsgId): (t: State)
    requires w in s.workers && s.workers[w].queue != []
  {
    At(s, w, Ready).(cache := None, bus := Acknowledge(s.bus, m))
  }

  /** The outcome, by the phase the first statements lead to. */
  lemma OutcomeByPhase(c: Config, s: State, m: MsgId)
    requires m < |s.bus.stream|
    ensures var ph := BeginPhase(s.db.processed, m, s.bus.stream[m].fields);
            var n := DeliveryAttempts(s.bus, m);
            match ph
            case Applied(_) => OutcomeOf(c, s, m) == Duplicates
            case Failed(_, error) =>
              OutcomeOf(c, s, m) == if n < c.maxDeliveryAttempts then Retries else GivesUp(error, n)
            case Inserted(_, event) =>
              (match NamedBatch(s.db, event)
               case Some(batch) => OutcomeOf(c, s, m) == Applies(event.eventId, batch)
               case None => OutcomeOf(c, s, m) == Crashes)
            case _ => false
  {
  }

  /** The state when the call returns, by the same phase. */
  lemma HandledByPhase(c: Config, s: State, w: Proc)
    requires CanHandle(s, w)
    ensures var m := s.workers[w].queue[0];
            match BeginPhase(s.db.processed, m, s.bus.stream[m].fields)
            case Applied(_) => Handled(c, s, w) == AppliedEnd(s, w, m)
            case Failed(_, error) => Handled(c, s, w) == FailedEnd(c, s, w, m, error)
            case Inserted(_, event) =>
              (match NamedBatch(s.db, event)
               case Some(batch) => Handled(c, s, w) == AppliedEnd(WithCommit(c, s, w, m, event.eventId, batch), w, m)
               case None => Handled(c, s, w) == s.(workers := s.workers - {w}))
            case _ => false
  {
    OutcomeByPhase(c, s, s.workers[w].queue[0]);
  }

  /** The `X-Cache` response header. */
  datatype XCache = Hit | Miss | Bypass | Disabled

  lemma TableIsFold(c: Config, s: State)
    requires Reachable(c, s)
    ensures s.db.view.fleet == Fold(c, s.history[..|s.history|]).fleet
  {
    Refinement(c, s);
    assert s.history[..|s.history|] == s.history;
  }

  class Deployment {
    const config: Config
    var state: State

    ghost predicate Valid()
      reads this
    {
      ValidConfig(config) && Reachable(config, state)
    }

    constructor (config: Config)
      requires ValidConfig(config)
      ensures Valid() && this.config == config && state == INIT
    {
      this.config := config;
      state := INIT;
      ReachesSelf(config, INIT);
    }

    /** One step of the program. */
    method Take(a: Step)
      requires Valid() && Enabled(state, a)
      modifies this
      ensures Valid() && state == Next(config, old(state), a)
      ensures forall s0 :: Reaches(config, s0, old(state)) ==> Reaches(config, s0, state)
    {
      ghost var before := state;
      state := Next(config, state, a);
      forall s0 | Reaches(config, s0, before) ensures Reaches(config, s0, state) {
        ReachesStep(config, s0, before, a);
      }
    }

    /** One request, answered after its commit. */
    method IngestBatch(p: Proc, batch: TelemetryBatch, now: int, e: EventId, createdAt: int, correlation: string)
      returns (accepted: bool)
      requires Valid() && p !in state.apis && !BatchLocked(state.apis, batch.batchId) && FreshEvent(state, e)
      modifies this
      ensures Valid() && Reaches(config, old(state), state)
      ensures accepted <==> batch.batchId !in old(state).db.batches
      ensures state == IngestedBatch(old(state), batch, now, e, createdAt, correlation)
      ensures Ingests(old(state).db, state.db, batch, now, e, createdAt, correlation)
      ensures state.responses == old(state).responses + [Response(batch.batchId, accepted)]
    {
      IngestExact(state, batch, now, e, createdAt, correlation);
      accepted := Serve(p, batch, now, e, createdAt, correlation);
    }

    /** The statements of one request. */
    method Serve(p: Proc, batch: TelemetryBatch, now: int, e: EventId, createdAt: int, correlation: string)
      returns (accepted: bool)
      requires Valid() && p !in state.apis && !BatchLocked(state.apis, batch.batchId) && FreshEvent(state, e)
      modifies this
      ensures Valid() && Reaches(config, old(state), state)
      ensures accepted <==> batch.batchId !in old(state).db.batches
      ensures state == IngestedBatch(old(state), batch, now, e, createdAt, correlation)
    {
      ghost var start := state;
      ReachesSelf(config, start);
      Take(Api(p, DoUpsertAgent(batch, now)));
      assert !BatchLocked(state.apis, batch.batchId) by {
        forall q | q in state.apis && state.apis[q].BatchInserted? ensures q in start.apis && state.apis[q] == start.apis[q] {
        }
      }
      Take(Api(p, DoInsertBatch));
      accepted := state.apis[p].inserted;
      assert state.apis - {p} == start.apis;
      Take(Api(p, DoApiCommit(e, createdAt, correlation)));
    }

    /** One page of the outbox, published. */
    method PublishOnce(p: Proc, at: int) returns (published: nat)
      requires Valid() && p !in state.relays
      modifies this
      ensures Valid() && Reaches(config, old(state), state)
      ensures exists rows :: IsPage(old(state).db.outbox, Available(old(state)), rows) && published == |rows|
                             && state == PublishedRows(old(state), rows, at) && Publishes(old(state), state, rows, at)
    {
      ghost var start := state;
      ghost var rows;
      published, rows := PublishPage(p, at);
      PublishExact(start, rows, at);
    }

    /** Lock the page, add its messages one by one, commit. */
    method PublishPage(p: Proc, at: int) returns (published: nat, ghost page: seq<EventId>)
      requires Valid() && p !in state.relays
      modifies this
      ensures Valid() && Reaches(config, old(state), state)
      ensures IsPage(old(state).db.outbox, Available(old(state)), page) && published == |page|
      ensures state == PublishedRows(old(state), page, at)
    {
      ghost var start := state;
      ReachesSelf(config, start);
      var rows := FirstPage(state.db.outbox, Available(state));
      page := rows;
      PageCanLock(start, p, rows);
      Take(Relay(p, DoLock(rows)));
      published := 0;
      while published < |rows|
        invariant published <= |rows| && Valid()
        invariant Reaches(config, start, state) && state == Sent(start, p, rows, published)
      {
        SentNext(start, p, rows, published);
        Take(Relay(p, DoXadd));
        published := published + 1;
      }
      SentAll(start, p, rows, at);
      Take(Relay(p, DoRelayCommit(at)));
    }

    /** The relay's poll loop, `k` times round. */
    method PollRelay(p: Proc, k: nat, at: int)
      requires Valid() && state.relays == map[]
      modifies this
      ensures Valid() && Reaches(config, old(state), state)
      ensures OnlyPublishes(old(state), state)
      ensures var n := |UnpublishedRows(old(state))|;
              |UnpublishedRows(state)| == if n < 100 * k then 0 else n - 100 * k
    {
      ghost var start := state;
      ReachesSelf(config, start);
      for i := 0 to k
        invariant Valid() && Reaches(config, start, state) && OnlyPublishes(start, state)
        invariant var n := |UnpublishedRows(start)|;
                  |UnpublishedRows(state)| == if n < PAGE * i then 0 else n - PAGE * i
      {
        ghost var before := state;
        var published := PublishOnce(p, at);
        ghost var rows :| IsPage(before.db.outbox, Available(before), rows) && published == |rows|
                          && state == PublishedRows(before, rows, at);
        PublishOnlyPublishes(before, rows, at);
        PageIsPublished(before, rows, at);
        OnlyPublishesTwice(start, before, state);
        ReachesTransitive(config, start, before, state);
      }
    }

    /** The read behind a miss: SELECT, then SET if the result is to be cached. */
    method ReadTable(r: Proc, store: bool) returns (rows: map<AgentId, FleetRow>)
      requires Valid() && r !in state.readers
      modifies this
      ensures Valid() && Reaches(config, old(state), state)
      ensures rows == old(state).db.view.fleet
      ensures state == if store then old(state).(cache := Some(CacheEntry(rows, |old(state).history|, |old(state).history|)))
                       else old(state)
    {
      ghost var start := state;
      ReachesSelf(config, start);
      Take(Read(r, DoMiss));
      Take(Read(r, DoSelect));
      rows := state.readers[r].rows;
      assert state.readers - {r} == start.readers;
      Take(Read(r, if store then DoSet else DoQuit));
    }

    /**
     One uninterrupted `list_fleet_state`; `getFails` and `setFails` say whether Redis raised. The
     rows are always the fleet table after some prefix of the commits, and a miss caches the
     current one.
     */
    method ListFleetState(r: Proc, cacheEnabled: bool, getFails: bool, setFails: bool)
      returns (rows: map<AgentId, FleetRow>, header: XCache)
      requires Valid() && r !in state.readers
      modifies this
      ensures Valid() && Reaches(config, old(state), state)
      ensures header == Disabled <==> !cacheEnabled
      ensures header == Hit <==> cacheEnabled && !getFails && old(state).cache.Some?
      ensures header == Miss <==> cacheEnabled && !getFails && !setFails && old(state).cache.None?
      ensures header == Bypass <==> cacheEnabled && (getFails || (setFails && old(state).cache.None?))
      ensures header.Hit? ==> rows == old(state).cache.value.rows && state == old(state)
      ensures !header.Hit? ==> rows == old(state).db.view.fleet
      ensures !header.Hit? ==>
                state == if cacheEnabled && !setFails
                         then old(state).(cache := Some(CacheEntry(rows, |old(state).history|, |old(state).history|)))
                         else old(state)
      ensures exists n: nat :: n <= |state.history| && rows == Fold(config, state.history[..n]).fleet
    {
      if cacheEnabled && !getFails && state.cache.Some? {
        ReachesSelf(config, state);
        CacheTheorems.CacheIsPastTable(config, state);
        return state.cache.value.rows, Hit;
      }
      TableIsFold(config, state);
      rows := ReadTable(r, cacheEnabled && !setFails);
      header := if !cacheEnabled then Disabled else if getFails || setFails then Bypass else Miss;
    }

    // ---------- process_event, dead_letter, handle_message ----------

    /** The transaction from its first insert on; `ok` is false when an uncaught error ends the worker. */
    method ProcessEvent(w: Proc, ghost s: State) returns (ok: bool)
      requires Valid() && w in s.workers && s.workers[w].queue != [] && Alone(s.workers, w)
      requires w in state.workers && state.workers[w].phase.Inserted? && state == At(s, w, state.workers[w].phase)
      modifies this
      ensures Valid()
      ensures forall s0 :: Reaches(config, s0, old(state)) ==> Reaches(config, s0, state)
      ensures var ph := old(state).workers[w].phase;
              match NamedBatch(s.db, ph.event)
              case Some(batch) =>
                && ok && state == At(WithCommit(config, s, w, ph.msg, ph.event.eventId, batch), w, Applied(ph.msg))
                && state.db.processed == s.db.processed[ph.event.eventId := ProcessedRow(ph.msg, w)]
                && (forall k: nat :: IsLatest(batch.samples, k) ==> Absorbs(config, s.db.view, batch, batch.samples[k], state.db.view))
              case None => !ok && state == s.(workers := s.workers - {w})
    {
      var m, event := state.workers[w].phase.msg, state.workers[w].phase.event;
      LoadAlone(config, s, w, m, event);
      if !CanWorkerLoad(state, w) {
        AtNext(s, w, Inserted(m, event), Ready);
        Take(Deliver(w, DoCrash));
        return false;
      }
      Take(Process(w, DoLoad));
      var batch := state.workers[w].phase.batch;
      UpsertAlone(s, w, Loaded(m, event, batch));
      AtNext(s, w, Loaded(m, event, batch), Upserted(m, event, batch));
      Take(Process(w, DoUpsert));
      Stage(w, s, m, event, batch);
      CommitAlone(config, s, w, state.workers[w].phase);
      ApplyExact(config, s.db.view, batch);
      Take(Process(w, DoCommit));
      return true;
    }

    /** The two incident inserts. */
    method Stage(w: Proc, ghost s: State, m: MsgId, event: QueueEvent, batch: TelemetryBatch)
      requires Valid() && w in s.workers && s.workers[w].queue != []
      requires state == At(s, w, Upserted(m, event, batch))
      modifies this
      ensures Valid()
      ensures forall s0 :: Reaches(config, s0, old(state)) ==> Reaches(config, s0, state)
      ensures state == At(s, w, MemoryDone(m, event, batch, Opens(config, s.db.view.incidents, batch, HighCpu),
                                           Opens(config, s.db.view.incidents, batch, HighMemory)))
    {
      ghost var cpu := Opens(config, s.db.view.incidents, batch, HighCpu);
      AtNext(s, w, Upserted(m, event, batch), CpuDone(m, event, batch, cpu));
      Take(Process(w, DoCpu));
      AtNext(s, w, CpuDone(m, event, batch, cpu),
             MemoryDone(m, event, batch, cpu, Opens(config, s.db.view.incidents, batch, HighMemory)));
      Take(Process(w, DoMemory));
    }

    /** DEL, then XACK. */
    method InvalidateAndAck(w: Proc, ghost s: State, m: MsgId)
      requires Valid() && w in s.workers && s.workers[w].queue != []
      requires state == At(s, w, Applied(m))
      modifies this
      ensures Valid()
      ensures forall s0 :: Reaches(config, s0, old(state)) ==> Reaches(config, s0, state)
      ensures state == AppliedEnd(s, w, m)
    {
      AtNext(s, w, Applied(m), Invalidated(m));
      Take(Deliver(w, DoInvalidate));
      AtNext(s, w, Invalidated(m), Ready);
      Take(Deliver(w, DoAck));
    }

    /** The dead-letter stream entry, the `dead_letters` row, then XACK. */
    method DeadLetter(w: Proc, ghost s: State, m: MsgId, error: ErrorType, attempts: nat)
      requires Valid() && w in s.workers && s.workers[w].queue != [] && m < |s.bus.stream|
      requires state == At(s, w, DeadLettering(m, error, attempts))
      modifies this
      ensures Valid()
      ensures forall s0 :: Reaches(config, s0, old(state)) ==> Reaches(config, s0, state)
      ensures var f := s.bus.stream[m].fields;
              state == At(s, w, Ready).(db := DeadLetteredDb(s.db, m, error, attempts, f),
                                        bus := Acknowledge(s.bus.(dlq := s.bus.dlq + [DlqEntry(m, error, f)]), m))
    {
      AtNext(s, w, DeadLettering(m, error, attempts), DlqWritten(m, error, attempts));
      Take(Deliver(w, DoDlqAdd));
      AtNext(s, w, DlqWritten(m, error, attempts), DlqRecorded(m));
      Take(Deliver(w, DoRecordDead));
      AtNext(s, w, DlqRecorded(m), Ready);
      Take(Deliver(w, DoAck));
    }

    /** The `except` clause: count the deliveries, then dead-letter or leave pending. */
    method HandleFailure(w: Proc, ghost s: State, m: MsgId, error: ErrorType)
      requires Valid() && w in s.workers && s.workers[w].queue != [] && m < |s.bus.stream|
      requires state == At(s, w, Failed(m, error))
      modifies this
      ensures Valid()
      ensures forall s0 :: Reaches(config, s0, old(state)) ==> Reaches(config, s0, state)
      ensures state == FailedEnd(config, s, w, m, error)
    {
      AtNext(s, w, Failed(m, error), AttemptsNext(config, s, Failed(m, error)));
      Take(Deliver(w, DoAttempts));
      if state.workers[w].phase.DeadLettering? {
        DeadLetter(w, s, m, error, state.workers[w].phase.attempts);
      }
    }

    method HandleMessage(w: Proc)
      requires Valid() && CanHandle(state, w)
      modifies this
      ensures Valid() && Reaches(config, old(state), state)
      ensures state == Handled(config, old(state), w)
    {
      ghost var s := state;
      ReachesSelf(config, s);
      var m := state.workers[w].queue[0];
      BeginAlone(s, w);
      HandledByPhase(config, s, w);
      Take(Process(w, DoBegin));
      if state.workers[w].phase.Inserted? {
        var event := state.workers[w].phase.event;
        var ok := ProcessEvent(w, s);
        if ok {
          InvalidateAndAck(w, WithCommit(config, s, w, m, event.eventId, NamedBatch(s.db, event).value), m);
        }
      } else if state.workers[w].phase.Applied? {
        InvalidateAndAck(w, s, m);
      } else {
        HandleFailure(w, s, m, state.workers[w].phase.error);
      }
    }
  }
}
