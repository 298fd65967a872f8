/**
 Exact retry. A crash-free run is orderly when a message is reclaimed only after the worker that held
 it has let go of it (the idle time outlasts the handling). In every orderly run a poison message is
 delivered at most `max_delivery_attempts` times, and dead-lettered with exactly that count.
 */
module OrderlyRuns {
  import opened Wrappers
  import opened Fleet
  import opened Pipeline
  import opened PipelineInvariant
  import opened PipelineTheorems
  import opened CarefulRuns

  ghost predicate OrderlyStep(s: State, a: Step) {
    a.Deliver? ==> !a.deliver.DoCrash? && (a.deliver.DoClaim? ==> !IsHeld(s.workers, a.deliver.m))
  }

  // ---------- the invariant of orderly runs ----------

  ghost predicate Tidy(x: Worker) {
    Distinct(x.queue) && (!x.phase.Ready? ==> x.phase.msg !in x.queue)
  }

  /** Every message has at most one holder, once. */
  ghost predicate Exclusive(workers: map<Proc, Worker>) {
    && (forall w :: w in workers ==> Tidy(workers[w]))
    && (forall v, w, m :: v in workers && w in workers && Holds(workers[v], m) && Holds(workers[w], m) ==> v == w)
  }

  ghost predicate HeldArePending(workers: map<Proc, Worker>, bus: Bus) {
    forall w, m :: w in workers && Holds(workers[w], m) ==> m in bus.pending
  }

  /** A poison message nobody holds still has deliveries left. */
  ghost predicate Bounded(c: Config, workers: map<Proc, Worker>, bus: Bus) {
    && (forall m :: m in bus.deliveries && IsPoison(bus, m) ==> bus.deliveries[m] <= c.maxDeliveryAttempts)
    && (forall m :: m in bus.pending && IsPoison(bus, m) && !IsHeld(workers, m) ==>
          bus.pending[m].times < c.maxDeliveryAttempts)
  }

  ghost predicate AtExactLimit(c: Config, x: Worker) {
    x.phase.DeadLettering? || x.phase.DlqWritten? ==> x.phase.attempts == c.maxDeliveryAttempts
  }

  ghost predicate ExactAttempts(c: Config, workers: map<Proc, Worker>, dead: map<MsgId, DeadLetterRow>) {
    && (forall w :: w in workers ==> AtExactLimit(c, workers[w]))
    && (forall m :: m in dead ==> dead[m].attempts == c.maxDeliveryAttempts)
  }

  ghost predicate Orderly(c: Config, s: State) {
    && Exclusive(s.workers)
    && HeldArePending(s.workers, s.bus)
    && Bounded(c, s.workers, s.bus)
    && ExactAttempts(c, s.workers, s.db.deadLetters)
  }

  // ---------- replacing one worker ----------

  /** The new worker holds what the old one did. */
  ghost predicate SameHold(x: Worker, y: Worker) {
    forall m :: Holds(x, m) <==> Holds(y, m)
  }

  lemma SameHeld(workers: map<Proc, Worker>, w: Proc, y: Worker, m: MsgId)
    requires w in workers && SameHold(workers[w], y)
    ensures IsHeld(workers[w := y], m) <==> IsHeld(workers, m)
  {
    var after := workers[w := y];
    if v :| v in workers && Holds(workers[v], m) {
      assert Holds(after[v], m);
    }
    if v :| v in after && Holds(after[v], m) {
      assert Holds(workers[v], m);
    }
  }

  lemma ReplaceSame(c: Config, workers: map<Proc, Worker>, bus: Bus, w: Proc, y: Worker)
    requires Exclusive(workers) && HeldArePending(workers, bus) && Bounded(c, workers, bus)
    requires w in workers && SameHold(workers[w], y) && Tidy(y)
    ensures Exclusive(workers[w := y]) && HeldArePending(workers[w := y], bus) && Bounded(c, workers[w := y], bus)
  {
    forall m ensures IsHeld(workers[w := y], m) <==> IsHeld(workers, m) {
      SameHeld(workers, w, y, m);
    }
    var after := workers[w := y];
    forall u, v, m | u in after && v in after && Holds(after[u], m) && Holds(after[v], m) ensures u == v {
      assert Holds(workers[u], m) && Holds(workers[v], m);
    }
    forall u, m | u in after && Holds(after[u], m) ensures m in bus.pending {
      assert Holds(workers[u], m);
    }
  }

  lemma ReplaceExact(c: Config, workers: map<Proc, Worker>, dead: map<MsgId, DeadLetterRow>, w: Proc, y: Worker)
    requires ExactAttempts(c, workers, dead) && AtExactLimit(c, y)
    ensures ExactAttempts(c, workers[w := y], dead)
  {
  }

  // ---------- deliveries ----------

  /** A message handed to a worker that nobody held before. */
  lemma Handed(workers: map<Proc, Worker>, bus: Bus, w: Proc, m: MsgId)
    requires Exclusive(workers) && HeldArePending(workers, bus)
    requires w in workers && workers[w].phase.Ready? && !IsHeld(workers, m)
    ensures var after := workers[w := Worker(workers[w].queue + [m], Ready)];
            && Exclusive(after)
            && (forall v, k :: v in after && Holds(after[v], k) ==> k == m || k in bus.pending)
            && (forall k :: IsHeld(after, k) <==> IsHeld(workers, k) || k == m)
  {
    var y := Worker(workers[w].queue + [m], Ready);
    var after := workers[w := y];
    assert forall k :: Holds(y, k) <==> Holds(workers[w], k) || k == m;
    forall v | v in workers ensures !Holds(workers[v], m) {
    }
    assert Tidy(y) by {
      assert Tidy(workers[w]) && !Holds(workers[w], m);
    }
    forall u, v, k | u in after && v in after && Holds(after[u], k) && Holds(after[v], k) ensures u == v {
      if k != m {
        assert Holds(workers[u], k) && Holds(workers[v], k);
      }
    }
    forall k ensures IsHeld(after, k) <==> IsHeld(workers, k) || k == m {
      if v :| v in workers && Holds(workers[v], k) {
        assert Holds(after[v], k);
      }
      assert Holds(after[w], m);
    }
  }

  lemma ReadOrderly(c: Config, s: State, w: Proc)
    requires ValidConfig(c) && GroupOk(s.bus) && Orderly(c, s) && CanWorkerRead(s, w)
    ensures Orderly(c, WorkerRead(s, w))
  {
    var m := s.bus.delivered;
    var y := Worker(s.workers[w].queue + [m], Ready);
    assert m !in s.bus.pending;
    assert !IsHeld(s.workers, m);
    Handed(s.workers, s.bus, w, m);
    ReplaceExact(c, s.workers, s.db.deadLetters, w, y);
  }

  lemma ClaimOrderly(c: Config, s: State, w: Proc, m: MsgId)
    requires GroupOk(s.bus) && Orderly(c, s) && CanWorkerClaim(s, w, m) && !IsHeld(s.workers, m)
    ensures Orderly(c, WorkerClaim(s, w, m))
  {
    var y := Worker(s.workers[w].queue + [m], Ready);
    Handed(s.workers, s.bus, w, m);
    ReplaceExact(c, s.workers, s.db.deadLetters, w, y);
  }

  // ---------- letting go ----------

  /** A worker finishes its message: nobody holds it any more, and the others hold what they held. */
  lemma LetGo(workers: map<Proc, Worker>, w: Proc)
    requires Exclusive(workers) && w in workers && !workers[w].phase.Ready?
    ensures var m := workers[w].phase.msg;
            var after := workers[w := workers[w].(phase := Ready)];
            && Exclusive(after)
            && (forall k :: IsHeld(after, k) <==> IsHeld(workers, k) && k != m)
            && (forall v, k :: v in after && Holds(after[v], k) ==> Holds(workers[v], k) && k != m)
  {
    var m := workers[w].phase.msg;
    var y := workers[w].(phase := Ready);
    var after := workers[w := y];
    assert Tidy(workers[w]) && Holds(workers[w], m);
    forall v, k | v in after && Holds(after[v], k) ensures Holds(workers[v], k) && k != m {
    }
    forall k ensures IsHeld(after, k) <==> IsHeld(workers, k) && k != m {
      if v :| v in workers && Holds(workers[v], k) && k != m {
        assert Holds(after[v], k);
      }
    }
  }

  lemma AckOrderly(c: Config, s: State, w: Proc)
    requires GroupOk(s.bus) && Orderly(c, s) && CanWorkerAck(s, w)
    ensures Orderly(c, WorkerAck(s, w))
  {
    LetGo(s.workers, w);
    ReplaceExact(c, s.workers, s.db.deadLetters, w, s.workers[w].(phase := Ready));
  }

  /** The count read is the group's own, so it is at most the limit: either below it, or exactly at it. */
  lemma AttemptsOrderly(c: Config, s: State, w: Proc)
    requires GroupOk(s.bus) && Orderly(c, s) && CanWorkerAttempts(s, w)
    requires IsPoison(s.bus, s.workers[w].phase.msg)
    ensures Orderly(c, WorkerAttempts(c, s, w))
  {
    var ph := s.workers[w].phase;
    assert Holds(s.workers[w], ph.msg);
    var next := AttemptsNext(c, s, ph);
    var y := s.workers[w].(phase := next);
    ReplaceExact(c, s.workers, s.db.deadLetters, w, y);
    if next.Ready? {
      LetGo(s.workers, w);
    } else {
      assert Tidy(s.workers[w]);
      ReplaceSame(c, s.workers, s.bus, w, y);
    }
  }

  // ---------- phases that keep the message ----------

  lemma KeepOrderly(c: Config, s: State, w: Proc, ph: Phase)
    requires Orderly(c, s) && w in s.workers
    requires !s.workers[w].phase.Ready? && !ph.Ready? && ph.msg == s.workers[w].phase.msg
    requires AtExactLimit(c, s.workers[w].(phase := ph))
    ensures Orderly(c, SetPhase(s, w, ph))
  {
    var y := s.workers[w].(phase := ph);
    assert Tidy(s.workers[w]);
    ReplaceSame(c, s.workers, s.bus, w, y);
    ReplaceExact(c, s.workers, s.db.deadLetters, w, y);
  }

  lemma BeginOrderly(c: Config, s: State, w: Proc)
    requires Orderly(c, s) && CanWorkerBegin(s, w)
    ensures Orderly(c, WorkerBegin(s, w))
  {
    var queue := s.workers[w].queue;
    var m := queue[0];
    var ph := BeginPhase(s.db.processed, m, s.bus.stream[m].fields);
    var y := Worker(queue[1..], ph);
    assert Tidy(s.workers[w]);
    assert queue == [m] + queue[1..];
    assert forall k :: k in queue <==> k == m || k in queue[1..];
    assert m !in queue[1..] by {
      forall i | 0 <= i < |queue[1..]| ensures queue[1..][i] != m {
        assert queue[1..][i] == queue[i + 1];
      }
    }
    ReplaceSame(c, s.workers, s.bus, w, y);
    ReplaceExact(c, s.workers, s.db.deadLetters, w, y);
  }

  /** Orderly looks at workers, pending list and dead letters only. */
  lemma OrderlyFrame(c: Config, s: State, t: State)
    requires Orderly(c, s) && GroupOk(s.bus)
    requires t.workers == s.workers && t.db.deadLetters == s.db.deadLetters
    requires t.bus.pending == s.bus.pending && t.bus.deliveries == s.bus.deliveries && s.bus.stream <= t.bus.stream
    ensures Orderly(c, t)
  {
  }

  lemma ProcessOrderly(c: Config, s: State, w: Proc, a: ProcessAction)
    requires Orderly(c, s) && GroupOk(s.bus) && ProcessEnabled(s, w, a)
    ensures Orderly(c, ProcessNext(c, s, w, a))
  {
    if a.DoBegin? {
      BeginOrderly(c, s, w);
    } else {
      var t := ProcessNext(c, s, w, a);
      var ph := t.workers[w].phase;
      ProcessFrame(c, s, w, a);
      KeepOrderly(c, s, w, ph);
      OrderlyFrame(c, SetPhase(s, w, ph), t);
    }
  }

  lemma RecordDeadOrderly(c: Config, s: State, w: Proc)
    requires Orderly(c, s) && CanWorkerRecordDead(s, w)
    ensures Orderly(c, WorkerRecordDead(s, w))
  {
    assert AtExactLimit(c, s.workers[w]);
    KeepOrderly(c, s, w, DlqRecorded(s.workers[w].phase.msg));
  }

  lemma DlqAddOrderly(c: Config, s: State, w: Proc)
    requires Orderly(c, s) && GroupOk(s.bus) && CanWorkerDlqAdd(s, w)
    ensures Orderly(c, WorkerDlqAdd(s, w))
  {
    var ph := s.workers[w].phase;
    var next := DlqWritten(ph.msg, ph.error, ph.attempts);
    assert AtExactLimit(c, s.workers[w]);
    KeepOrderly(c, s, w, next);
    OrderlyFrame(c, SetPhase(s, w, next), WorkerDlqAdd(s, w));
  }

  lemma StartOrderly(c: Config, s: State, w: Proc)
    requires Orderly(c, s) && CanWorkerStart(s, w)
    ensures Orderly(c, WorkerStart(s, w))
  {
    var after := s.workers[w := Worker([], Ready)];
    forall m ensures IsHeld(after, m) <==> IsHeld(s.workers, m) {
      if v :| v in s.workers && Holds(s.workers[v], m) {
        assert Holds(after[v], m);
      }
    }
    ReplaceExact(c, s.workers, s.db.deadLetters, w, Worker([], Ready));
  }

  lemma FailedIsPoison(c: Config, s: State, w: Proc)
    requires WorkersOk(c, s.workers, s.db, s.bus) && CanWorkerAttempts(s, w)
    ensures IsPoison(s.bus, s.workers[w].phase.msg)
  {
    assert WorkerOk(c, s.workers[w], s.db, s.bus);
  }

  lemma DeliveryOrderly(c: Config, s: State, w: Proc, a: DeliveryAction)
    requires ValidConfig(c) && GroupOk(s.bus) && WorkersOk(c, s.workers, s.db, s.bus)
    requires Orderly(c, s) && DeliveryEnabled(s, w, a) && OrderlyStep(s, Deliver(w, a))
    ensures Orderly(c, DeliveryNext(c, s, w, a))
  {
    match a
    case DoStart => StartOrderly(c, s, w);
    case DoRead => ReadOrderly(c, s, w);
    case DoClaim(m) => ClaimOrderly(c, s, w, m);
    case DoInvalidate => KeepOrderly(c, s, w, Invalidated(s.workers[w].phase.msg));
    case DoAck => AckOrderly(c, s, w);
    case DoAttempts => FailedIsPoison(c, s, w); AttemptsOrderly(c, s, w);
    case DoDlqAdd => DlqAddOrderly(c, s, w);
    case DoRecordDead => RecordDeadOrderly(c, s, w);
    case DoCrash =>
  }

  lemma OrderlyKept(c: Config, s: State, a: Step)
    requires ValidConfig(c) && GroupOk(s.bus) && WorkersOk(c, s.workers, s.db, s.bus)
    requires Orderly(c, s) && Enabled(s, a) && OrderlyStep(s, a)
    ensures Orderly(c, Next(c, s, a))
  {
    match a
    case Api(p, x) => ApiFrame(s, p, x); OrderlyFrame(c, s, ApiNext(s, p, x));
    case Relay(p, x) => RelayFrame(s, p, x); OrderlyFrame(c, s, RelayNext(s, p, x));
    case Deliver(p, x) => DeliveryOrderly(c, s, p, x);
    case Process(p, x) => ProcessOrderly(c, s, p, x);
    case Read(p, x) => ReaderFrame(s, p, x); OrderlyFrame(c, s, ReaderNext(s, p, x));
    case Environment(f) => OrderlyFrame(c, s, Inject(s, f));
    case Expire => OrderlyFrame(c, s, CacheExpire(s));
  }

  lemma {:induction false} OrderlyInvariant(c: Config, steps: seq<Step>, s: State)
    requires ValidConfig(c) && RestrictedRun(c, OrderlyStep, steps, s)
    ensures Orderly(c, s)
  {
    if steps != [] {
      var n := |steps| - 1;
      var u :| RestrictedRun(c, OrderlyStep, steps[..n], u) && Enabled(u, steps[n]) && OrderlyStep(u, steps[n])
               && s == Next(c, u, steps[n]);
      OrderlyInvariant(c, steps[..n], u);
      RestrictedIsRun(c, OrderlyStep, steps[..n], u);
      RunInvariant(c, steps[..n], u);
      OrderlyKept(c, u, steps[n]);
    }
  }

  lemma {:induction false} OrderlyIsCareful(c: Config, steps: seq<Step>, s: State, m: MsgId)
    requires RestrictedRun(c, OrderlyStep, steps, s)
    ensures RestrictedRun(c, Careful(m), steps, s)
  {
    if steps != [] {
      var n := |steps| - 1;
      var u :| RestrictedRun(c, OrderlyStep, steps[..n], u) && Enabled(u, steps[n]) && OrderlyStep(u, steps[n])
               && s == Next(c, u, steps[n]);
      OrderlyIsCareful(c, steps[..n], u, m);
      assert Careful(m)(u, steps[n]);
    }
  }

  /** In an orderly run no poison message is delivered past the limit, so its dead letter says exactly the limit. */
  lemma ExactRetry(c: Config, steps: seq<Step>, s: State, m: MsgId)
    requires ValidConfig(c) && RestrictedRun(c, OrderlyStep, steps, s)
    requires m < s.bus.delivered && IsPoison(s.bus, m) && !IsHeld(s.workers, m) && !IsProcessed(s.db, s.bus, m)
    ensures m in s.bus.deliveries && 1 <= s.bus.deliveries[m] <= c.maxDeliveryAttempts
    ensures m in s.bus.pending <==> s.bus.deliveries[m] < c.maxDeliveryAttempts
    ensures m in s.db.deadLetters <==> s.bus.deliveries[m] == c.maxDeliveryAttempts
    ensures m in s.db.deadLetters ==> s.db.deadLetters[m].attempts == c.maxDeliveryAttempts
  {
    OrderlyInvariant(c, steps, s);
    OrderlyIsCareful(c, steps, s, m);
    BoundedRetry(c, steps, s, m);
  }
}
