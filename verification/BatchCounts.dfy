/**
 How often a batch is applied. Each event is applied at most once, but a foreign message of the
 accepted type may name a stored batch under an event id of its own, and then the batch is applied
 for that event too.
 */
module BatchCounts {
  import opened Telemetry
  import opened Queueing
  import opened Fleet
  import opened Pipeline
  import opened PipelineInvariant
  import opened PipelineTheorems

  /** How many commits applied this batch. */
  ghost function CommitsOf(h: seq<Commit>, b: BatchId): (n: nat) {
    if h == [] then 0
    else
      var k := |h| - 1;
      CommitsOf(h[..k], b) + (if h[k].batch.batchId == b then 1 else 0)
  }

  ghost function EventsOf(h: seq<Commit>, b: BatchId): (r: set<EventId>) {
    set i | 0 <= i < |h| && h[i].batch.batchId == b :: h[i].event
  }

  ghost predicate DistinctEvents(h: seq<Commit>) {
    forall i, j :: 0 <= i < j < |h| ==> h[i].event != h[j].event
  }

  /** The batch's own event, once it is processed. */
  ghost function OwnEvents(s: State, b: BatchId): (r: set<EventId>) {
    set e | e in s.db.processed && e in s.db.outbox && s.db.outbox[e].aggregateId == b
  }

  /** The message recorded for this event names the batch. */
  ghost predicate Names(s: State, e: EventId, b: BatchId)
    requires e in s.db.processed
  {
    var m := s.db.processed[e].msg;
    m < |s.bus.stream| && Carries(s.bus.stream[m].fields, e, b)
  }

  /** Processed events from outside that name the batch. */
  ghost function ForeignEvents(s: State, b: BatchId): (r: set<EventId>) {
    set e | e in s.db.processed && e !in s.db.outbox && Names(s, e, b)
  }

  lemma EventsSnoc(g: seq<Commit>, x: Commit, b: BatchId)
    ensures EventsOf(g + [x], b) == EventsOf(g, b) + (if x.batch.batchId == b then {x.event} else {})
  {
    var h := g + [x];
    forall i | 0 <= i < |g| && g[i].batch.batchId == b ensures g[i].event in EventsOf(h, b) {
      assert h[i] == g[i];
    }
    assert h[|g|] == x;
  }

  lemma {:induction false} CountIsEvents(h: seq<Commit>, b: BatchId)
    requires DistinctEvents(h)
    ensures CommitsOf(h, b) == |EventsOf(h, b)|
  {
    if h == [] {
      assert EventsOf(h, b) == {};
    } else {
      var k := |h| - 1;
      CountIsEvents(h[..k], b);
      assert h == h[..k] + [h[k]];
      EventsSnoc(h[..k], h[k], b);
      assert h[k].event !in EventsOf(h[..k], b);
    }
  }

  /** What a commit says of its event, if the event is in the outbox and if it is not. */
  lemma OwnCommit(s: State, i: nat, b: BatchId)
    requires OutboxOk(s.db.batches, s.db.outbox) && StreamOk(s.bus.stream, s.db.outbox) && HistoryOk(s.history, s.db, s.bus)
    requires i < |s.history| && s.history[i].event in s.db.outbox
    ensures s.history[i].batch.batchId == b <==> s.history[i].event in OwnEvents(s, b)
  {
    assert CommitOk(s.db, s.bus, s.history[i]);
    CommitOfOutboxEvent(s, i);
  }

  lemma ForeignCommit(s: State, i: nat, b: BatchId)
    requires HistoryOk(s.history, s.db, s.bus)
    requires i < |s.history| && s.history[i].event !in s.db.outbox
    ensures s.history[i].batch.batchId == b <==> s.history[i].event in ForeignEvents(s, b)
  {
    assert CommitOk(s.db, s.bus, s.history[i]);
  }

  lemma CommitEvent(s: State, i: nat, b: BatchId)
    requires OutboxOk(s.db.batches, s.db.outbox) && StreamOk(s.bus.stream, s.db.outbox) && HistoryOk(s.history, s.db, s.bus)
    requires i < |s.history|
    ensures s.history[i].batch.batchId == b <==> s.history[i].event in OwnEvents(s, b) + ForeignEvents(s, b)
  {
    if s.history[i].event in s.db.outbox {
      OwnCommit(s, i, b);
    } else {
      ForeignCommit(s, i, b);
    }
  }

  lemma ProcessedHasCommit(s: State, b: BatchId, e: EventId)
    requires OutboxOk(s.db.batches, s.db.outbox) && StreamOk(s.bus.stream, s.db.outbox) && HistoryOk(s.history, s.db, s.bus)
    requires e in OwnEvents(s, b) + ForeignEvents(s, b)
    ensures e in EventsOf(s.history, b)
  {
    var i :| 0 <= i < |s.history| && s.history[i].event == e;
    CommitEvent(s, i, b);
  }

  lemma EventsSplit(s: State, b: BatchId)
    requires OutboxOk(s.db.batches, s.db.outbox) && StreamOk(s.bus.stream, s.db.outbox) && HistoryOk(s.history, s.db, s.bus)
    ensures EventsOf(s.history, b) == OwnEvents(s, b) + ForeignEvents(s, b)
  {
    forall e | e in EventsOf(s.history, b) ensures e in OwnEvents(s, b) + ForeignEvents(s, b) {
      var i :| 0 <= i < |s.history| && s.history[i].batch.batchId == b && s.history[i].event == e;
      CommitEvent(s, i, b);
    }
    forall e | e in OwnEvents(s, b) + ForeignEvents(s, b) ensures e in EventsOf(s.history, b) {
      ProcessedHasCommit(s, b, e);
    }
  }

  lemma AtMostOneOwn(s: State, b: BatchId)
    requires OutboxOk(s.db.batches, s.db.outbox)
    ensures |OwnEvents(s, b)| <= 1
  {
    var own := OwnEvents(s, b);
    if own != {} {
      var e :| e in own;
      assert own == {e};
    }
  }

  /** The commits of a batch are its own event's, at most one, and one for every foreign event that names it. */
  lemma BatchCommits(c: Config, s: State, b: BatchId)
    requires Reachable(c, s)
    ensures CommitsOf(s.history, b) == |OwnEvents(s, b)| + |ForeignEvents(s, b)|
    ensures |OwnEvents(s, b)| <= 1
  {
    ReachableInvariant(c, s);
    CountIsEvents(s.history, b);
    EventsSplit(s, b);
    AtMostOneOwn(s, b);
    assert OwnEvents(s, b) !! ForeignEvents(s, b);
  }

  /** At rest a stored batch has been applied once for its own event, and once more for every foreign event that names it. */
  lemma BatchCommitsAtRest(c: Config, s: State, b: BatchId)
    requires Reachable(c, s) && Quiescent(s) && b in s.db.batches
    ensures CommitsOf(s.history, b) == 1 + |ForeignEvents(s, b)|
  {
    BatchCommits(c, s, b);
    ExactlyOnce(c, s, b);
    var e :| AppliedOnce(s, b, e);
    AtMostOnce(c, s, e);
    assert e in OwnEvents(s, b);
  }
}
