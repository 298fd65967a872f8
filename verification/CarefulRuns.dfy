/**
 Bounded retry. A run is careful with a message when no worker dies with that message in hand; other
 crashes are allowed, and so is reclaiming a message a slow worker still holds, so that several
 workers are at work on the same one.
 */
module CarefulRuns {
  import opened Fleet
  import opened Pipeline
  import opened PipelineInvariant
  import opened PipelineTheorems

  /** The worker has fetched the message and not finished with it. */
  ghost predicate Holds(x: Worker, m: MsgId) {
    m in x.queue || (!x.phase.Ready? && x.phase.msg == m)
  }

  ghost predicate IsHeld(workers: map<Proc, Worker>, m: MsgId) {
    exists w :: w in workers && Holds(workers[w], m)
  }

  ghost predicate CarefulStep(m: MsgId, s: State, a: Step) {
    a.Deliver? && a.deliver.DoCrash? && a.p in s.workers ==> !Holds(s.workers[a.p], m)
  }

  ghost function Careful(m: MsgId): (allowed: (State, Step) -> bool) {
    (s, a) => CarefulStep(m, s, a)
  }

  ghost predicate CrashFreeStep(s: State, a: Step) {
    a.Deliver? ==> !a.deliver.DoCrash?
  }

  /** A poison message that has reached the limit and is still pending is in some worker's hands. */
  ghost predicate HeldAtLimit(c: Config, workers: map<Proc, Worker>, bus: Bus, m: MsgId) {
    m in bus.pending && IsPoison(bus, m) && bus.pending[m].times >= c.maxDeliveryAttempts ==> IsHeld(workers, m)
  }

  // ---------- every careful step keeps it ----------

  /** Replacing a worker by one that holds the message if it did keeps it held. */
  lemma HeldKept(workers: map<Proc, Worker>, w: Proc, y: Worker, m: MsgId)
    requires w in workers ==> (Holds(workers[w], m) ==> Holds(y, m))
    requires IsHeld(workers, m)
    ensures IsHeld(workers[w := y], m)
  {
    var v :| v in workers && Holds(workers[v], m);
    assert Holds(workers[w := y][v], m);
  }

  /** The worker keeps the message if it holds it, and its count grows only if the worker now holds it. */
  lemma KeepAtLimit(c: Config, workers: map<Proc, Worker>, bus: Bus, w: Proc, y: Worker, bus': Bus, m: MsgId)
    requires HeldAtLimit(c, workers, bus, m) && GroupOk(bus) && bus.stream <= bus'.stream
    requires w in workers ==> (Holds(workers[w], m) ==> Holds(y, m))
    requires m in bus'.pending ==> Holds(y, m) || (m in bus.pending && bus'.pending[m].times == bus.pending[m].times)
    ensures HeldAtLimit(c, workers[w := y], bus', m)
  {
    if m in bus'.pending && IsPoison(bus', m) && bus'.pending[m].times >= c.maxDeliveryAttempts {
      if Holds(y, m) {
        assert Holds(workers[w := y][w], m);
      } else {
        assert bus'.stream[m] == bus.stream[m];
        HeldKept(workers, w, y, m);
      }
    }
  }

  /** The worker lets go of a message, which is settled or below the limit if it is this one. */
  lemma LetGoAtLimit(c: Config, workers: map<Proc, Worker>, bus: Bus, w: Proc, bus': Bus, m: MsgId)
    requires HeldAtLimit(c, workers, bus, m) && w in workers && !workers[w].phase.Ready?
    requires bus'.stream == bus.stream
    requires m in bus'.pending ==> m in bus.pending && bus'.pending[m] == bus.pending[m]
    requires m == workers[w].phase.msg && m in bus'.pending ==> bus.pending[m].times < c.maxDeliveryAttempts
    ensures HeldAtLimit(c, workers[w := workers[w].(phase := Ready)], bus', m)
  {
    if m in bus'.pending && IsPoison(bus', m) && bus'.pending[m].times >= c.maxDeliveryAttempts {
      HeldKept(workers, w, workers[w].(phase := Ready), m);
    }
  }

  lemma BeginHolds(s: State, w: Proc, m: MsgId)
    requires CanWorkerBegin(s, w) && Holds(s.workers[w], m)
    ensures Holds(WorkerBegin(s, w).workers[w], m)
  {
    var queue := s.workers[w].queue;
    assert queue == [queue[0]] + queue[1..];
  }

  lemma ProcessAtLimit(c: Config, s: State, w: Proc, a: ProcessAction, m: MsgId)
    requires HeldAtLimit(c, s.workers, s.bus, m) && GroupOk(s.bus) && ProcessEnabled(s, w, a)
    ensures HeldAtLimit(c, ProcessNext(c, s, w, a).workers, s.bus, m)
  {
    var t := ProcessNext(c, s, w, a);
    if a.DoBegin? && Holds(s.workers[w], m) {
      BeginHolds(s, w, m);
    }
    assert t.workers == s.workers[w := t.workers[w]];
    KeepAtLimit(c, s.workers, s.bus, w, t.workers[w], s.bus, m);
  }

  lemma FetchAtLimit(c: Config, s: State, w: Proc, k: MsgId, bus: Bus, m: MsgId)
    requires HeldAtLimit(c, s.workers, s.bus, m) && GroupOk(s.bus) && w in s.workers && s.workers[w].phase.Ready?
    requires bus.stream == s.bus.stream
    requires m in bus.pending && m != k ==> m in s.bus.pending && bus.pending[m] == s.bus.pending[m]
    ensures HeldAtLimit(c, s.workers[w := Worker(s.workers[w].queue + [k], Ready)], bus, m)
  {
    KeepAtLimit(c, s.workers, s.bus, w, Worker(s.workers[w].queue + [k], Ready), bus, m);
  }

  /** The worker moves on with the message it is handling. */
  lemma PhaseAtLimit(c: Config, s: State, w: Proc, ph: Phase, bus: Bus, m: MsgId)
    requires HeldAtLimit(c, s.workers, s.bus, m) && GroupOk(s.bus) && w in s.workers
    requires !s.workers[w].phase.Ready? && !ph.Ready? && ph.msg == s.workers[w].phase.msg
    requires bus.stream == s.bus.stream && bus.pending == s.bus.pending
    ensures HeldAtLimit(c, SetPhase(s, w, ph).workers, bus, m)
  {
    KeepAtLimit(c, s.workers, s.bus, w, s.workers[w].(phase := ph), bus, m);
  }

  lemma AttemptsAtLimit(c: Config, s: State, w: Proc, m: MsgId)
    requires HeldAtLimit(c, s.workers, s.bus, m) && GroupOk(s.bus) && CanWorkerAttempts(s, w)
    ensures HeldAtLimit(c, WorkerAttempts(c, s, w).workers, s.bus, m)
  {
    var next := AttemptsNext(c, s, s.workers[w].phase);
    if next.Ready? {
      LetGoAtLimit(c, s.workers, s.bus, w, s.bus, m);
    } else {
      PhaseAtLimit(c, s, w, next, s.bus, m);
    }
  }

  /** A worker dies that does not hold the message. */
  lemma CrashAtLimit(c: Config, s: State, w: Proc, m: MsgId)
    requires HeldAtLimit(c, s.workers, s.bus, m) && w in s.workers && !Holds(s.workers[w], m)
    ensures HeldAtLimit(c, s.workers - {w}, s.bus, m)
  {
    if IsHeld(s.workers, m) {
      var v :| v in s.workers && Holds(s.workers[v], m);
      assert Holds((s.workers - {w})[v], m);
    }
  }

  lemma DeliveryAtLimit(c: Config, s: State, w: Proc, a: DeliveryAction, m: MsgId)
    requires HeldAtLimit(c, s.workers, s.bus, m) && GroupOk(s.bus) && DeliveryEnabled(s, w, a)
    requires CarefulStep(m, s, Deliver(w, a))
    ensures HeldAtLimit(c, DeliveryNext(c, s, w, a).workers, DeliveryNext(c, s, w, a).bus, m)
  {
    var t := DeliveryNext(c, s, w, a);
    match a
    case DoStart => KeepAtLimit(c, s.workers, s.bus, w, Worker([], Ready), s.bus, m);
    case DoRead => FetchAtLimit(c, s, w, s.bus.delivered, t.bus, m);
    case DoClaim(k) => FetchAtLimit(c, s, w, k, t.bus, m);
    case DoInvalidate => PhaseAtLimit(c, s, w, t.workers[w].phase, t.bus, m);
    case DoAck => LetGoAtLimit(c, s.workers, s.bus, w, t.bus, m);
    case DoAttempts => AttemptsAtLimit(c, s, w, m);
    case DoDlqAdd => PhaseAtLimit(c, s, w, t.workers[w].phase, t.bus, m);
    case DoRecordDead => PhaseAtLimit(c, s, w, t.workers[w].phase, t.bus, m);
    case DoCrash => CrashAtLimit(c, s, w, m);
  }

  /** Only workers, pending list and the message itself matter. */
  lemma AtLimitFrame(c: Config, workers: map<Proc, Worker>, bus: Bus, bus': Bus, m: MsgId)
    requires HeldAtLimit(c, workers, bus, m) && GroupOk(bus)
    requires bus'.pending == bus.pending && bus.stream <= bus'.stream
    ensures HeldAtLimit(c, workers, bus', m)
  {
  }

  lemma AtLimitKept(c: Config, s: State, a: Step, m: MsgId)
    requires HeldAtLimit(c, s.workers, s.bus, m) && GroupOk(s.bus) && Enabled(s, a) && CarefulStep(m, s, a)
    ensures HeldAtLimit(c, Next(c, s, a).workers, Next(c, s, a).bus, m)
  {
    match a
    case Api(p, x) => ApiFrame(s, p, x);
    case Relay(p, x) => RelayFrame(s, p, x); AtLimitFrame(c, s.workers, s.bus, RelayNext(s, p, x).bus, m);
    case Deliver(p, x) => DeliveryAtLimit(c, s, p, x, m);
    case Process(p, x) => ProcessFrame(c, s, p, x); ProcessAtLimit(c, s, p, x, m);
    case Read(p, x) => ReaderFrame(s, p, x);
    case Environment(f) => AtLimitFrame(c, s.workers, s.bus, Inject(s, f).bus, m);
    case Expire =>
  }

  lemma {:induction false} AtLimitInvariant(c: Config, steps: seq<Step>, s: State, m: MsgId)
    requires RestrictedRun(c, Careful(m), steps, s)
    ensures HeldAtLimit(c, s.workers, s.bus, m)
  {
    if steps != [] {
      var n := |steps| - 1;
      var u :| RestrictedRun(c, Careful(m), steps[..n], u) && Enabled(u, steps[n]) && Careful(m)(u, steps[n])
               && s == Next(c, u, steps[n]);
      AtLimitInvariant(c, steps[..n], u, m);
      RestrictedIsRun(c, Careful(m), steps[..n], u);
      RunInvariant(c, steps[..n], u);
      AtLimitKept(c, u, steps[n], m);
    }
  }

  // ---------- the theorem ----------

  lemma LetGoIsSettled(c: Config, s: State, m: MsgId)
    requires GroupOk(s.bus) && AckedOk(s.db, s.bus) && DeadOk(c, s.db.deadLetters, s.bus)
    requires HeldAtLimit(c, s.workers, s.bus, m)
    requires m < s.bus.delivered && IsPoison(s.bus, m) && !IsHeld(s.workers, m) && !IsProcessed(s.db, s.bus, m)
    ensures m in s.bus.deliveries && 1 <= s.bus.deliveries[m]
    ensures s.bus.deliveries[m] < c.maxDeliveryAttempts <==> m in s.bus.pending
    ensures m in s.bus.pending <==> m !in s.bus.acked
    ensures m in s.bus.pending <==> m !in s.db.deadLetters
    ensures m in s.db.deadLetters ==> InDlq(s.bus.dlq, m)
  {
    if m in s.db.deadLetters {
      assert DeadLetterOk(c, s.bus, m, s.db.deadLetters[m]);
    }
  }

  /**
   Bounded retry: in a run careful with it, a poison message that no worker has in hand is pending,
   and not dead-lettered, as long as it was delivered fewer than `max_delivery_attempts` times; from
   that delivery on it is dead-lettered and acknowledged. (A message whose event id another message
   has meanwhile committed is acknowledged as a duplicate instead.)
   */
  lemma BoundedRetry(c: Config, steps: seq<Step>, s: State, m: MsgId)
    requires RestrictedRun(c, Careful(m), steps, s)
    requires m < s.bus.delivered && IsPoison(s.bus, m) && !IsHeld(s.workers, m) && !IsProcessed(s.db, s.bus, m)
    ensures m in s.bus.deliveries && 1 <= s.bus.deliveries[m]
    ensures s.bus.deliveries[m] < c.maxDeliveryAttempts ==>
              m in s.bus.pending && m !in s.bus.acked && m !in s.db.deadLetters
    ensures s.bus.deliveries[m] >= c.maxDeliveryAttempts ==>
              && m !in s.bus.pending && m in s.bus.acked && InDlq(s.bus.dlq, m) && m in s.db.deadLetters
              && c.maxDeliveryAttempts <= s.db.deadLetters[m].attempts <= s.bus.deliveries[m]
  {
    AtLimitInvariant(c, steps, s, m);
    RestrictedIsRun(c, Careful(m), steps, s);
    RunInvariant(c, steps, s);
    LetGoIsSettled(c, s, m);
    if m in s.db.deadLetters {
      DeadLetters(c, s, m);
    }
  }
}
