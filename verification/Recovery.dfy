/**
 Delay, not loss: from every reachable state, whatever crashed where, one relay and one worker that
 are left alone can drain the pipeline, so that every accepted batch ends up applied exactly once.
 The one obstacle is a pill: a message of the accepted type that names no stored batch, which ends
 every worker that handles it. The pipeline can be drained if and only if each pill's event is also
 carried by a message that can be applied; then the pill turns into a duplicate.
 */
module Recovery {
  import opened Telemetry
  import opened Queueing
  import opened Fleet
  import opened Pipeline
  import opened PipelineInvariant
  import opened ConsumeInvariant
  import opened PipelineTheorems
  import opened Operations
  import opened Deployment

  /** A message a worker cannot survive now. */
  predicate IsPill(db: Database, f: Fields) {
    PoisonError(f).None? && EventOf(f).eventId !in db.processed && NamedBatch(db, EventOf(f)).None?
  }

  /** Some message carries this event and names a stored batch. */
  ghost predicate HasCarrier(db: Database, stream: seq<Entry>, e: EventId) {
    exists k :: 0 <= k < |stream| && IsCarrier(db, stream[k].fields, e)
  }

  ghost predicate IsCarrier(db: Database, f: Fields, e: EventId) {
    PoisonError(f).None? && EventOf(f).eventId == e && NamedBatch(db, EventOf(f)).Some?
  }

  /** Every foreign pill has a message that can cure it. */
  ghost predicate Curable(db: Database, stream: seq<Entry>) {
    forall m :: 0 <= m < |stream| && stream[m].origin.Foreign? && IsPill(db, stream[m].fields) ==>
      HasCarrier(db, stream, EventOf(stream[m].fields).eventId)
  }

  // ---------- one message ----------

  lemma StoredIsNamed(agents: map<AgentId, AgentRow>, db: Database, event: QueueEvent, b: BatchId)
    requires BatchesOk(agents, db.batches) && b in db.batches && event.aggregateId == UuidText(b)
    ensures NamedBatch(db, event).Some?
  {
    StoredDoc(agents, db.batches, b);
  }

  /** A relay's own message is never a pill: its batch was stored with its outbox row. */
  lemma RelayMessageIsNoPill(c: Config, s: State, m: MsgId)
    requires Reachable(c, s) && m < |s.bus.stream| && s.bus.stream[m].origin.FromRelay?
    ensures !IsPill(s.db, s.bus.stream[m].fields)
  {
    ReachableInvariant(c, s);
    var e := s.bus.stream[m].origin.event;
    assert EntryOk(s.db.outbox, s.bus.stream[m]);
    RelayMessage(s.db.batches, s.db.outbox, s.bus.stream[m], e);
    assert OutboxRowOk(s.db.batches, s.db.outbox[e]);
    StoredIsNamed(s.db.agents, s.db, EventOf(s.bus.stream[m].fields), s.db.outbox[e].aggregateId);
  }

  /** A worker survives every message but a pill. */
  lemma CrashIsPill(c: Config, s: State, m: MsgId)
    requires m < |s.bus.stream|
    ensures OutcomeOf(c, s, m).Crashes? <==> IsPill(s.db, s.bus.stream[m].fields)
  {
  }

  /** With more events processed and the same batches, there are no new pills and no fewer cures. */
  lemma CurableKept(db: Database, db': Database, stream: seq<Entry>)
    requires Curable(db, stream)
    requires db'.batches == db.batches && db.processed.Keys <= db'.processed.Keys
    ensures Curable(db', stream)
    ensures forall m :: 0 <= m < |stream| && IsPill(db', stream[m].fields) ==> IsPill(db, stream[m].fields)
  {
    forall m | 0 <= m < |stream| && stream[m].origin.Foreign? && IsPill(db', stream[m].fields)
      ensures HasCarrier(db', stream, EventOf(stream[m].fields).eventId)
    {
      var e := EventOf(stream[m].fields).eventId;
      assert IsPill(db, stream[m].fields);
      var k :| 0 <= k < |stream| && IsCarrier(db, stream[k].fields, e);
      assert IsCarrier(db', stream[k].fields, e);
    }
  }

  /** One idle worker, and the same batches, outbox and stream as `s`. */
  ghost predicate Draining(s: State, t: State, w: Proc) {
    && t.workers == map[w := Worker([], Ready)]
    && t.db.batches == s.db.batches
    && t.db.outbox == s.db.outbox
    && t.bus.stream == s.bus.stream
    && t.readers == s.readers && t.apis == s.apis
    && Curable(t.db, t.bus.stream)
  }

  /** What handling does to the pending list, and what it leaves alone. */
  lemma FinishFrame(c: Config, s: State, w: Proc, o: Outcome)
    requires CanHandle(s, w) && !o.Crashes?
    ensures var m := s.workers[w].queue[0];
            var t := Finish(c, s, w, o);
            && t.workers == s.workers[w := Worker(s.workers[w].queue[1..], Ready)]
            && t.db.batches == s.db.batches && t.db.outbox == s.db.outbox
            && t.readers == s.readers && t.apis == s.apis && s.db.processed.Keys <= t.db.processed.Keys
            && t.bus.stream == s.bus.stream && t.bus.delivered == s.bus.delivered
            && t.bus.pending == if o.Retries? then s.bus.pending else s.bus.pending - {m}
  {
  }

  lemma RetriesBelowLimit(c: Config, s: State, m: MsgId)
    requires m < |s.bus.stream| && OutcomeOf(c, s, m).Retries?
    ensures DeliveryAttempts(s.bus, m) < c.maxDeliveryAttempts
  {
  }

  lemma HandleOne(c: Config, s: State, w: Proc, m: MsgId)
    requires Curable(s.db, s.bus.stream)
    requires s.workers == map[w := Worker([m], Ready)] && m < |s.bus.stream| && !IsPill(s.db, s.bus.stream[m].fields)
    ensures CanHandle(s, w)
    ensures Draining(s, Handled(c, s, w), w)
    ensures !IsPill(Handled(c, s, w).db, s.bus.stream[m].fields)
    ensures Handled(c, s, w).bus.delivered == s.bus.delivered
    ensures Handled(c, s, w).bus.pending == s.bus.pending - {m} ||
            (Handled(c, s, w).bus.pending == s.bus.pending && DeliveryAttempts(s.bus, m) < c.maxDeliveryAttempts)
  {
    CrashIsPill(c, s, m);
    FinishFrame(c, s, w, OutcomeOf(c, s, m));
    if OutcomeOf(c, s, m).Retries? {
      RetriesBelowLimit(c, s, m);
    }
    assert [m][1..] == [];
    assert s.workers[w := Worker([], Ready)] == map[w := Worker([], Ready)];
    CurableKept(s.db, Handled(c, s, w).db, s.bus.stream);
  }

  /** Claim and handle a pending message until it is settled. */
  method Settle(d: Deployment, w: Proc, m: MsgId)
    requires d.Valid() && Draining(d.state, d.state, w) && m in d.state.bus.pending
    requires m < |d.state.bus.stream| && !IsPill(d.state.db, d.state.bus.stream[m].fields)
    modifies d
    ensures d.Valid() && Reaches(d.config, old(d.state), d.state)
    ensures Draining(old(d.state), d.state, w)
    ensures d.state.bus.pending.Keys == old(d.state).bus.pending.Keys - {m}
    ensures d.state.bus.delivered == old(d.state).bus.delivered
  {
    ghost var start := d.state;
    ReachesSelf(d.config, start);
    while m in d.state.bus.pending
      invariant d.Valid() && Reaches(d.config, start, d.state) && Draining(start, d.state, w)
      invariant d.state.bus.delivered == start.bus.delivered && !IsPill(d.state.db, d.state.bus.stream[m].fields)
      invariant d.state.bus.pending.Keys == start.bus.pending.Keys
                || d.state.bus.pending.Keys == start.bus.pending.Keys - {m}
      decreases if m in d.state.bus.pending then Left(d.config, d.state.bus.pending[m].times) else 0
    {
      d.Take(Deliver(w, DoClaim(m)));
      ghost var claimed := d.state;
      assert [] + [m] == [m];
      assert claimed.workers == map[w := Worker([m], Ready)];
      HandleOne(d.config, claimed, w, m);
      d.HandleMessage(w);
      ReachesTransitive(d.config, start, claimed, d.state);
    }
  }

  /** One more than the deliveries left before the limit. */
  function Left(c: Config, times: nat): (n: nat) {
    if times < c.maxDeliveryAttempts then c.maxDeliveryAttempts - times + 1 else 1
  }

  /** A worker with one fetched message, in an otherwise drained deployment. */
  ghost predicate Fetched(s: State, w: Proc, m: MsgId) {
    s.workers == map[w := Worker([m], Ready)] && m < |s.bus.stream| && Curable(s.db, s.bus.stream)
  }

  /** A pill ends the worker, and another one takes its place. */
  method Restart(d: Deployment, w: Proc, m: MsgId)
    requires d.Valid() && Fetched(d.state, w, m) && IsPill(d.state.db, d.state.bus.stream[m].fields)
    modifies d
    ensures d.Valid() && Reaches(d.config, old(d.state), d.state)
    ensures Draining(old(d.state), d.state, w) && d.state.bus.delivered == old(d.state).bus.delivered
  {
    ghost var start := d.state;
    CrashIsPill(d.config, start, m);
    d.HandleMessage(w);
    d.Take(Deliver(w, DoStart));
    assert d.state.workers == map[w := Worker([], Ready)];
  }

  /** Any other message is handled, and settled if it was left pending. */
  method HandleAndSettle(d: Deployment, w: Proc, m: MsgId)
    requires d.Valid() && Fetched(d.state, w, m) && !IsPill(d.state.db, d.state.bus.stream[m].fields)
    modifies d
    ensures d.Valid() && Reaches(d.config, old(d.state), d.state)
    ensures Draining(old(d.state), d.state, w) && d.state.bus.delivered == old(d.state).bus.delivered
  {
    ghost var start := d.state;
    HandleOne(d.config, start, w, m);
    d.HandleMessage(w);
    if m in d.state.bus.pending {
      ghost var handled := d.state;
      Settle(d, w, m);
      ReachesTransitive(d.config, start, handled, d.state);
    }
  }

  lemma ReadFetches(s: State, w: Proc)
    requires s.workers == map[w := Worker([], Ready)] && CanWorkerRead(s, w) && Curable(s.db, s.bus.stream)
    ensures Fetched(WorkerRead(s, w), w, s.bus.delivered)
  {
    assert [] + [s.bus.delivered] == [s.bus.delivered];
  }

  /** Read the next message and get past it. */
  method ReadAndSettle(d: Deployment, w: Proc)
    requires d.Valid() && Draining(d.state, d.state, w) && d.state.bus.delivered < |d.state.bus.stream|
    modifies d
    ensures d.Valid() && Reaches(d.config, old(d.state), d.state)
    ensures Draining(old(d.state), d.state, w)
    ensures d.state.bus.delivered == old(d.state).bus.delivered + 1
  {
    ghost var start := d.state;
    ReachesSelf(d.config, start);
    var m := d.state.bus.delivered;
    ReadFetches(start, w);
    d.Take(Deliver(w, DoRead));
    ghost var read := d.state;
    if IsPill(d.state.db, d.state.bus.stream[m].fields) {
      Restart(d, w, m);
    } else {
      HandleAndSettle(d, w, m);
    }
    ReachesTransitive(d.config, start, read, d.state);
  }

  /** An unacknowledged carrier of an event nobody has processed is pending, once all is delivered. */
  lemma CarrierIsPending(c: Config, s: State, k: MsgId, e: EventId)
    requires Reachable(c, s) && s.bus.delivered == |s.bus.stream|
    requires k < |s.bus.stream| && IsCarrier(s.db, s.bus.stream[k].fields, e) && e !in s.db.processed
    ensures k in s.bus.pending && !IsPill(s.db, s.bus.stream[k].fields)
  {
    NoLoss(c, s);
    if k in s.db.deadLetters {
      DeadLetters(c, s, k);
    }
  }

  /** As long as anything is pending, something pending is not a pill. */
  lemma SomethingSettles(c: Config, s: State)
    requires Reachable(c, s) && Curable(s.db, s.bus.stream)
    requires s.bus.delivered == |s.bus.stream| && s.bus.pending != map[]
    ensures exists m :: m in s.bus.pending.Keys && m < |s.bus.stream| && !IsPill(s.db, s.bus.stream[m].fields)
  {
    var m :| m in s.bus.pending;
    PendingInStream(c, s, m);
    if s.bus.stream[m].origin.FromRelay? {
      RelayMessageIsNoPill(c, s, m);
    } else if IsPill(s.db, s.bus.stream[m].fields) {
      var e := EventOf(s.bus.stream[m].fields).eventId;
      var k :| 0 <= k < |s.bus.stream| && IsCarrier(s.db, s.bus.stream[k].fields, e);
      CarrierIsPending(c, s, k, e);
    }
  }

  lemma PendingInStream(c: Config, s: State, m: MsgId)
    requires Reachable(c, s) && m in s.bus.pending
    ensures m < |s.bus.stream|
  {
    ReachableInvariant(c, s);
  }

  /** A worker that reads to the end of the stream and then claims what is still pending. */
  method DrainStream(d: Deployment, w: Proc)
    requires d.Valid() && Draining(d.state, d.state, w)
    modifies d
    ensures d.Valid() && Reaches(d.config, old(d.state), d.state)
    ensures Draining(old(d.state), d.state, w)
    ensures d.state.bus.pending == map[] && d.state.bus.delivered == |d.state.bus.stream|
  {
    ghost var start := d.state;
    ReachesSelf(d.config, start);
    DeliveredInStream(d.config, d.state);
    while d.state.bus.delivered < |d.state.bus.stream|
      invariant d.Valid() && Reaches(d.config, start, d.state) && Draining(start, d.state, w)
      invariant d.state.bus.delivered <= |d.state.bus.stream|
    {
      ghost var before := d.state;
      ReadAndSettle(d, w);
      ReachesTransitive(d.config, start, before, d.state);
    }
    while d.state.bus.pending != map[]
      invariant d.Valid() && Reaches(d.config, start, d.state) && Draining(start, d.state, w)
      invariant d.state.bus.delivered == |d.state.bus.stream|
      decreases d.state.bus.pending.Keys
    {
      ghost var before := d.state;
      SomethingSettles(d.config, d.state);
      var m :| m in d.state.bus.pending.Keys && m < |d.state.bus.stream| && !IsPill(d.state.db, d.state.bus.stream[m].fields);
      Settle(d, w, m);
      ReachesTransitive(d.config, start, before, d.state);
    }
  }

  lemma DeliveredInStream(c: Config, s: State)
    requires Reachable(c, s)
    ensures s.bus.delivered <= |s.bus.stream|
  {
    ReachableInvariant(c, s);
  }

  // ---------- stopping what was running ----------

  lemma RelayCanAbort(c: Config, s: State, q: Proc)
    requires Reachable(c, s) && q in s.relays
    ensures CanRelayAbort(s, q)
  {
    ReachableInvariant(c, s);
    assert RelayOk(s.db.outbox, s.relays[q]);
  }

  /** Every relay and worker process ends where it stands. */
  method StopAll(d: Deployment)
    requires d.Valid()
    modifies d
    ensures d.Valid() && Reaches(d.config, old(d.state), d.state)
    ensures d.state.relays == map[] && d.state.workers == map[]
    ensures d.state.db == old(d.state).db && d.state.bus == old(d.state).bus
    ensures d.state.readers == old(d.state).readers && d.state.apis == old(d.state).apis
  {
    ghost var start := d.state;
    ReachesSelf(d.config, start);
    while d.state.relays != map[]
      invariant d.Valid() && Reaches(d.config, start, d.state)
      invariant d.state.db == start.db && d.state.bus == start.bus
      invariant d.state.readers == start.readers && d.state.apis == start.apis
      decreases d.state.relays.Keys
    {
      var q :| q in d.state.relays.Keys;
      RelayCanAbort(d.config, d.state, q);
      d.Take(Relay(q, DoRelayAbort));
    }
    while d.state.workers != map[]
      invariant d.Valid() && Reaches(d.config, start, d.state) && d.state.relays == map[]
      invariant d.state.db == start.db && d.state.bus == start.bus
      invariant d.state.readers == start.readers && d.state.apis == start.apis
      decreases d.state.workers.Keys
    {
      var v :| v in d.state.workers.Keys;
      d.Take(Deliver(v, DoCrash));
    }
  }

  /** Nothing but relay messages was added. */
  ghost predicate OnlyRelayed(before: seq<Entry>, after: seq<Entry>) {
    before <= after && forall i :: |before| <= i < |after| ==> after[i].origin.FromRelay?
  }

  lemma CurablePublished(s: State, t: State)
    requires Curable(s.db, s.bus.stream) && OnlyPublishes(s, t)
    ensures Curable(t.db, t.bus.stream) && OnlyRelayed(s.bus.stream, t.bus.stream)
  {
    forall m | 0 <= m < |t.bus.stream| && t.bus.stream[m].origin.Foreign? && IsPill(t.db, t.bus.stream[m].fields)
      ensures HasCarrier(t.db, t.bus.stream, EventOf(t.bus.stream[m].fields).eventId)
    {
      var e := EventOf(t.bus.stream[m].fields).eventId;
      assert t.bus.stream[m] == s.bus.stream[m];
      assert IsPill(s.db, s.bus.stream[m].fields);
      var k :| 0 <= k < |s.bus.stream| && IsCarrier(s.db, s.bus.stream[k].fields, e);
      assert IsCarrier(t.db, t.bus.stream[k].fields, e);
    }
  }

  lemma EmptyMeansPublished(s: State)
    requires |UnpublishedRows(s)| == 0
    ensures forall e :: e in s.db.outbox ==> s.db.outbox[e].publishedAt.Some?
  {
    forall e | e in s.db.outbox ensures s.db.outbox[e].publishedAt.Some? {
      assert e !in UnpublishedRows(s);
    }
  }

  /**
   From any reachable state in which every pill can be cured, the program can go on, with no new
   batch and no new foreign message, to a state with nothing left to publish, deliver or
   acknowledge; ExactlyOnce then holds for every batch.
   */
  method Recover(d: Deployment, p: Proc, w: Proc, at: int)
    requires d.Valid() && Curable(d.state.db, d.state.bus.stream)
    modifies d
    ensures d.Valid() && Reaches(d.config, old(d.state), d.state)
    ensures Quiescent(d.state) && d.state.db.batches == old(d.state).db.batches
    ensures OnlyRelayed(old(d.state).bus.stream, d.state.bus.stream) && d.state.db.outbox.Keys == old(d.state).db.outbox.Keys
    ensures d.state.readers == old(d.state).readers && d.state.apis == old(d.state).apis
    ensures forall b :: b in d.state.db.batches ==> exists e :: AppliedOnce(d.state, b, e)
  {
    ghost var start := d.state;
    StopAll(d);
    ghost var stopped := d.state;
    var n := |UnpublishedRows(d.state)|;
    d.PollRelay(p, n, at);
    ghost var published := d.state;
    ReachesTransitive(d.config, start, stopped, published);
    CurablePublished(stopped, published);
    EmptyMeansPublished(published);
    d.Take(Deliver(w, DoStart));
    ghost var started := d.state;
    assert started.workers == map[w := Worker([], Ready)];
    DrainStream(d, w);
    ReachesTransitive(d.config, start, started, d.state);
    forall b | b in d.state.db.batches ensures exists e :: AppliedOnce(d.state, b, e) {
      ExactlyOnce(d.config, d.state, b);
    }
  }

  // ---------- no other state can be drained ----------

  /** At rest, the event of a foreign message that is no poison was committed through some message. */
  lemma CommittedThrough(c: Config, t: State, m: MsgId) returns (k: MsgId)
    requires Reachable(c, t) && Quiescent(t)
    requires m < |t.bus.stream| && t.bus.stream[m].origin.Foreign? && PoisonError(t.bus.stream[m].fields).None?
    ensures k < |t.bus.stream| && t.bus.stream[k].origin.Foreign?
    ensures IsCarrier(t.db, t.bus.stream[k].fields, EventOf(t.bus.stream[m].fields).eventId)
  {
    var e := EventOf(t.bus.stream[m].fields).eventId;
    NoLoss(c, t);
    if m in t.db.deadLetters {
      DeadLetters(c, t, m);
    }
    assert IsProcessed(t.db, t.bus, m);
    k := CommitOf(c, t, e);
    ForeignIsNotRelayed(c, t, m, k);
  }

  lemma CommitOf(c: Config, t: State, e: EventId) returns (k: MsgId)
    requires Reachable(c, t) && e in t.db.processed
    ensures k < |t.bus.stream| && IsCarrier(t.db, t.bus.stream[k].fields, e)
  {
    ReachableInvariant(c, t);
    var i :| 0 <= i < |t.history| && t.history[i].event == e;
    assert CommitOk(t.db, t.bus, t.history[i]);
    k := t.history[i].msg;
    StoredIsNamed(t.db.agents, t.db, EventOf(t.bus.stream[k].fields), t.history[i].batch.batchId);
  }

  /** A foreign message and a relay's never carry the same event. */
  lemma ForeignIsNotRelayed(c: Config, t: State, m: MsgId, k: MsgId)
    requires Reachable(c, t) && m < |t.bus.stream| && k < |t.bus.stream|
    requires t.bus.stream[m].origin.Foreign? && Decodes(t.bus.stream[m].fields) && Decodes(t.bus.stream[k].fields)
    requires EventOf(t.bus.stream[m].fields).eventId == EventOf(t.bus.stream[k].fields).eventId
    ensures t.bus.stream[k].origin.Foreign?
  {
    ReachableInvariant(c, t);
    assert EntryOk(t.db.outbox, t.bus.stream[m]) && EntryOk(t.db.outbox, t.bus.stream[k]);
    if t.bus.stream[k].origin.FromRelay? {
      RelayMessage(t.db.batches, t.db.outbox, t.bus.stream[k], t.bus.stream[k].origin.event);
    }
  }

  /** The condition of Recover is necessary: a state that can be drained that way is curable. */
  lemma OnlyCurableDrains(c: Config, s: State, t: State)
    requires Reachable(c, s) && Reaches(c, s, t) && Quiescent(t)
    requires t.db.batches == s.db.batches && OnlyRelayed(s.bus.stream, t.bus.stream)
    ensures Curable(s.db, s.bus.stream)
  {
    ReachesTransitive(c, INIT, s, t);
    forall m | 0 <= m < |s.bus.stream| && s.bus.stream[m].origin.Foreign? && IsPill(s.db, s.bus.stream[m].fields)
      ensures HasCarrier(s.db, s.bus.stream, EventOf(s.bus.stream[m].fields).eventId)
    {
      assert t.bus.stream[m] == s.bus.stream[m];
      var k := CommittedThrough(c, t, m);
      assert t.bus.stream[k] == s.bus.stream[k];
      assert IsCarrier(s.db, s.bus.stream[k].fields, EventOf(s.bus.stream[m].fields).eventId);
    }
  }

  /** One accepted event for a batch nobody sent, put on the stream of an empty system. */
  const ORPHAN := Inject(INIT, EncodeEvent(0, ACCEPTED, UuidText(0), map[]))

  lemma OrphanNeverDrains(c: Config, t: State)
    requires Reaches(c, ORPHAN, t) && t.db.batches == map[] && OnlyRelayed(ORPHAN.bus.stream, t.bus.stream)
    ensures Reachable(c, ORPHAN) && !Quiescent(t)
  {
    var event := QueueEvent(0, ACCEPTED, UuidText(0), map[]);
    DecodeInvertsEncode(event);
    ReachesSelf(c, INIT);
    ReachesStep(c, INIT, INIT, Environment(EncodeEvent(0, ACCEPTED, UuidText(0), map[])));
    assert ORPHAN.bus.stream[0].origin.Foreign?;
    assert IsPill(ORPHAN.db, ORPHAN.bus.stream[0].fields);
    if Quiescent(t) {
      OnlyCurableDrains(c, ORPHAN, t);
    }
  }
}
