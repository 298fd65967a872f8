/** The cache layer: cached rows are a past table, and an uninvalidated commit is unacknowledged. */
module CacheInvariant {
  import opened Telemetry
  import opened Fleet
  import opened Pipeline
  import opened PipelineInvariant

  /** Every worker phase after the step was there before, or is not the one between DEL and XACK. */
  ghost predicate NoNewInvalidated(before: map<Proc, Worker>, after: map<Proc, Worker>) {
    forall w :: w in after && after[w].phase.Invalidated? ==> w in before && before[w].phase == after[w].phase
  }

  lemma CacheFrame(c: Config, entry: CacheEntry, history: seq<Commit>, acked: set<MsgId>,
                   before: map<Proc, Worker>, after: map<Proc, Worker>)
    requires CacheOk(c, entry, history, acked, before)
    requires NoNewInvalidated(before, after)
    ensures CacheOk(c, entry, history, acked, after)
  {
  }

  lemma DeadIsPoison(c: Config, dead: map<MsgId, DeadLetterRow>, bus: Bus)
    requires DeadOk(c, dead, bus)
    ensures forall m :: m in dead ==> IsPoison(bus, m)
  {
    forall m | m in dead ensures IsPoison(bus, m) {
      assert DeadLetterOk(c, bus, m, dead[m]);
    }
  }

  lemma CommittedIsNotPoison(history: seq<Commit>, db: Database, bus: Bus)
    requires HistoryOk(history, db, bus)
    ensures forall i :: 0 <= i < |history| ==> !IsPoison(bus, history[i].msg)
  {
    forall i | 0 <= i < |history| ensures !IsPoison(bus, history[i].msg) {
      assert CommitOk(db, bus, history[i]);
    }
  }

  /** An acknowledgement after the DEL, or of a dead letter, is not of a commit the cache missed. */
  lemma CacheAck(c: Config, entry: CacheEntry, history: seq<Commit>, bus: Bus, workers: map<Proc, Worker>, w: Proc)
    requires CacheOk(c, entry, history, bus.acked, workers)
    requires w in workers && !workers[w].phase.Ready?
    requires workers[w].phase.Invalidated? || IsPoison(bus, workers[w].phase.msg)
    requires forall i :: 0 <= i < |history| ==> !IsPoison(bus, history[i].msg)
    ensures CacheOk(c, entry, history, bus.acked + {workers[w].phase.msg}, workers[w := workers[w].(phase := Ready)])
  {
    var m := workers[w].phase.msg;
    assert workers[w].phase.Invalidated? ==> workers[w].phase == Invalidated(m);
  }

  lemma AckPhase(c: Config, x: Worker, db: Database, bus: Bus)
    requires WorkerOk(c, x, db, bus) && (x.phase.Invalidated? || x.phase.DlqRecorded?)
    requires forall m :: m in db.deadLetters ==> IsPoison(bus, m)
    ensures x.phase.Invalidated? || IsPoison(bus, x.phase.msg)
  {
  }

  lemma AckIsSettled(c: Config, s: State, w: Proc)
    requires Consumed(c, s) && CanWorkerAck(s, w)
    ensures s.workers[w].phase.Invalidated? || IsPoison(s.bus, s.workers[w].phase.msg)
    ensures forall i :: 0 <= i < |s.history| ==> !IsPoison(s.bus, s.history[i].msg)
  {
    DeadIsPoison(c, s.db.deadLetters, s.bus);
    AckPhase(c, s.workers[w], s.db, s.bus);
    CommittedIsNotPoison(s.history, s.db, s.bus);
  }

  lemma AckCached(c: Config, s: State, w: Proc)
    requires Consumed(c, s) && Cached(c, s) && CanWorkerAck(s, w)
    ensures Cached(c, WorkerAck(s, w))
  {
    AckIsSettled(c, s, w);
    if s.cache.Some? {
      CacheAck(c, s.cache.value, s.history, s.bus, s.workers, w);
    }
  }

  lemma DeliveryNoNewInvalidated(c: Config, s: State, w: Proc, a: DeliveryAction)
    requires DeliveryEnabled(s, w, a) && !a.DoInvalidate?
    ensures NoNewInvalidated(s.workers, DeliveryNext(c, s, w, a).workers)
    ensures !a.DoAck? ==> DeliveryNext(c, s, w, a).bus.acked == s.bus.acked
    ensures DeliveryNext(c, s, w, a).cache == s.cache
  {
  }

  lemma DeliveryCached(c: Config, s: State, w: Proc, a: DeliveryAction)
    requires Consumed(c, s) && Cached(c, s) && DeliveryEnabled(s, w, a)
    ensures Cached(c, DeliveryNext(c, s, w, a))
  {
    var t := DeliveryNext(c, s, w, a);
    DeliveryFrame(c, s, w, a);
    if a.DoAck? {
      AckCached(c, s, w);
    } else if !a.DoInvalidate? {
      DeliveryNoNewInvalidated(c, s, w, a);
      if s.cache.Some? {
        CacheFrame(c, s.cache.value, s.history, s.bus.acked, s.workers, t.workers);
      }
    }
  }

  // ---------- commits ----------

  lemma SnapshotAppend(c: Config, history: seq<Commit>, x: Commit, rows: map<AgentId, FleetRow>, n: nat)
    requires IsSnapshot(c, history, rows, n)
    ensures IsSnapshot(c, history + [x], rows, n)
  {
    assert (history + [x])[..n] == history[..n];
  }

  /** A message whose event is not yet processed is neither acknowledged nor past its DEL. */
  lemma CommitIsFresh(c: Config, s: State, w: Proc)
    requires Consumed(c, s) && CanWorkerCommit(s, w)
    ensures s.workers[w].phase.msg !in s.bus.acked
    ensures forall v :: v in s.workers ==> s.workers[v].phase != Invalidated(s.workers[w].phase.msg)
  {
    var m := s.workers[w].phase.msg;
    assert WorkerOk(c, s.workers[w], s.db, s.bus);
    assert !IsProcessed(s.db, s.bus, m) && !IsPoison(s.bus, m);
    DeadIsPoison(c, s.db.deadLetters, s.bus);
    forall v | v in s.workers ensures s.workers[v].phase != Invalidated(m) {
      assert WorkerOk(c, s.workers[v], s.db, s.bus);
    }
  }

  lemma CacheCommit(c: Config, entry: CacheEntry, history: seq<Commit>, x: Commit, acked: set<MsgId>,
                    before: map<Proc, Worker>, after: map<Proc, Worker>)
    requires CacheOk(c, entry, history, acked, before)
    requires NoNewInvalidated(before, after)
    requires x.msg !in acked
    requires forall v :: v in before ==> before[v].phase != Invalidated(x.msg)
    ensures CacheOk(c, entry, history + [x], acked, after)
  {
    SnapshotAppend(c, history, x, entry.rows, entry.selectedAt);
    forall i | entry.setAt <= i < |history| + 1
      ensures (history + [x])[i].msg !in acked
      ensures forall w :: w in after ==> after[w].phase != Invalidated((history + [x])[i].msg)
    {
      assert i < |history| ==> (history + [x])[i] == history[i];
    }
  }

  lemma ReadersCommit(c: Config, readers: map<Proc, Reader>, history: seq<Commit>, x: Commit)
    requires ReadersOk(c, readers, history)
    ensures ReadersOk(c, readers, history + [x])
  {
    forall r | r in readers && readers[r].Snapshot? ensures IsSnapshot(c, history + [x], readers[r].rows, readers[r].at) {
      SnapshotAppend(c, history, x, readers[r].rows, readers[r].at);
    }
  }

  lemma CommitCached(c: Config, s: State, w: Proc)
    requires Consumed(c, s) && Cached(c, s) && CanWorkerCommit(s, w)
    ensures Cached(c, WorkerCommit(c, s, w))
  {
    var ph := s.workers[w].phase;
    var x := Commit(ph.event.eventId, ph.msg, ph.batch);
    CommitIsFresh(c, s, w);
    ReadersCommit(c, s.readers, s.history, x);
    ProcessNoNewInvalidated(c, s, w, DoCommit);
    if s.cache.Some? {
      CacheCommit(c, s.cache.value, s.history, x, s.bus.acked, s.workers, WorkerCommit(c, s, w).workers);
    }
  }

  lemma ProcessNoNewInvalidated(c: Config, s: State, w: Proc, a: ProcessAction)
    requires ProcessEnabled(s, w, a)
    ensures NoNewInvalidated(s.workers, ProcessNext(c, s, w, a).workers)
    ensures !a.DoCommit? ==> ProcessNext(c, s, w, a).history == s.history
  {
  }

  lemma ProcessCached(c: Config, s: State, w: Proc, a: ProcessAction)
    requires Consumed(c, s) && Cached(c, s) && ProcessEnabled(s, w, a)
    ensures Cached(c, ProcessNext(c, s, w, a))
  {
    if a.DoCommit? {
      CommitCached(c, s, w);
    } else {
      ProcessFrame(c, s, w, a);
      ProcessNoNewInvalidated(c, s, w, a);
      if s.cache.Some? {
        CacheFrame(c, s.cache.value, s.history, s.bus.acked, s.workers, ProcessNext(c, s, w, a).workers);
      }
    }
  }

  // ---------- readers ----------

  lemma ReaderCached(c: Config, s: State, r: Proc, a: ReaderAction)
    requires s.db.view == Fold(c, s.history) && Cached(c, s) && ReaderEnabled(s, r, a)
    ensures Cached(c, ReaderNext(s, r, a))
  {
    assert s.history[..|s.history|] == s.history;
  }

  /** Every step keeps the cache layer. */
  lemma CachedStep(c: Config, s: State, a: Step)
    requires Consumed(c, s) && Cached(c, s) && Enabled(s, a)
    ensures Cached(c, Next(c, s, a))
  {
    match a
    case Api(p, x) => ApiFrame(s, p, x);
    case Relay(p, x) => RelayFrame(s, p, x);
    case Deliver(p, x) => DeliveryCached(c, s, p, x);
    case Process(p, x) => ProcessCached(c, s, p, x);
    case Read(p, x) => ReaderCached(c, s, p, x);
    case Environment(f) =>
    case Expire =>
  }
}
