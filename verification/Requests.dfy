/**
 One agent among the other clients of the pipeline. Everything else that happens while the agent
 collects or waits for an answer, its own request's statements included, is a list of steps of the
 state machine; a step that is not enabled when its turn comes is skipped, so every interleaving is
 some list. The one thing nobody else does is to post a batch under an id the agent has drawn.
 */
module Requests {
  import opened Wrappers
  import opened Telemetry
  import opened Fleet
  import opened Pipeline
  import opened PipelineTheorems
  import opened Durability
  import opened Deployment

  // ---------- what a list of steps does ----------

  ghost function Played(c: Config, s: State, steps: seq<Step>): (t: State) {
    if steps == [] then s
    else
      var n := |steps| - 1;
      var u := Played(c, s, steps[..n]);
      if Enabled(u, steps[n]) then Next(c, u, steps[n]) else u
  }

  /** This step commits the request for `b`, if there is one, that API process `p` is serving. */
  predicate Commits(s: State, a: Step, p: Proc, b: Option<TelemetryBatch>) {
    a.Api? && a.p == p && a.api.DoApiCommit? && Enabled(s, a) && b == Some(s.apis[p].batch)
  }

  /** Somewhere in the list the request commits. */
  ghost predicate CommitsIn(c: Config, s: State, steps: seq<Step>, p: Proc, b: Option<TelemetryBatch>)
    decreases |steps|
  {
    steps != [] &&
    var n := |steps| - 1;
    CommitsIn(c, s, steps[..n], p, b) || Commits(Played(c, s, steps[..n]), steps[n], p, b)
  }

  /** Step `i` is the commit of process `p` while it serves `b`, and can be taken when its turn comes. */
  ghost predicate CommitsAt(c: Config, s: State, steps: seq<Step>, i: nat, p: Proc, b: TelemetryBatch) {
    && i < |steps|
    && var u := Played(c, s, steps[..i]);
       && p in u.apis && u.apis[p].BatchInserted? && u.apis[p].batch == b
       && exists e, createdAt, correlation :: steps[i] == Api(p, DoApiCommit(e, createdAt, correlation)) && FreshEvent(u, e)
  }

  ghost predicate CommitsBy(c: Config, s: State, steps: seq<Step>, i: nat, p: Proc, b: TelemetryBatch) {
    i < |steps| && Commits(Played(c, s, steps[..i]), steps[i], p, Some(b))
  }

  lemma CommitsByIsAt(c: Config, s: State, steps: seq<Step>, i: nat, p: Proc, b: TelemetryBatch)
    ensures CommitsBy(c, s, steps, i, p, b) <==> CommitsAt(c, s, steps, i, p, b)
  {
  }

  lemma CommitsByPrefix(c: Config, s: State, steps: seq<Step>, i: nat, p: Proc, b: TelemetryBatch)
    requires i + 1 < |steps|
    ensures CommitsBy(c, s, steps[..|steps| - 1], i, p, b) <==> CommitsBy(c, s, steps, i, p, b)
  {
    assert steps[..|steps| - 1][..i] == steps[..i];
  }

  lemma {:induction false} CommitsSome(c: Config, s: State, steps: seq<Step>, p: Proc, b: TelemetryBatch)
    ensures CommitsIn(c, s, steps, p, Some(b)) <==> exists i: nat :: CommitsBy(c, s, steps, i, p, b)
  {
    if steps != [] {
      var n := |steps| - 1;
      CommitsSome(c, s, steps[..n], p, b);
      forall i: nat | i < n ensures CommitsBy(c, s, steps[..n], i, p, b) <==> CommitsBy(c, s, steps, i, p, b) {
        CommitsByPrefix(c, s, steps, i, p, b);
      }
      if i: nat :| CommitsBy(c, s, steps[..n], i, p, b) {
        assert CommitsBy(c, s, steps, i, p, b);
      }
      assert CommitsBy(c, s, steps, n, p, b) <==> Commits(Played(c, s, steps[..n]), steps[n], p, Some(b));
    }
  }

  /** Exactly when the request commits: one of the steps is its commit. */
  lemma CommitsExactly(c: Config, s: State, steps: seq<Step>, p: Proc, b: TelemetryBatch)
    ensures CommitsIn(c, s, steps, p, Some(b)) <==> exists i: nat :: CommitsAt(c, s, steps, i, p, b)
  {
    CommitsSome(c, s, steps, p, b);
    forall i: nat ensures CommitsBy(c, s, steps, i, p, b) <==> CommitsAt(c, s, steps, i, p, b) {
      CommitsByIsAt(c, s, steps, i, p, b);
    }
  }

  // ---------- the agent's ids ----------

  /** A batch under one of the agent's ids is one the agent has spooled. */
  ghost predicate Respects(b: BatchDoc, all: seq<TelemetryBatch>, ids: set<BatchId>) {
    b.batchId in ids ==> b in all
  }

  /** Nothing in the API's tables or open transactions pretends to be the agent's. */
  ghost predicate Unforged(apis: map<Proc, ApiTxn>, batches: map<BatchId, BatchRow>, all: seq<TelemetryBatch>, ids: set<BatchId>) {
    && (forall p :: p in apis ==> Respects(apis[p].batch, all, ids))
    && (forall b :: b in batches ==> Respects(batches[b].payload, all, ids))
  }

  /** The step does not post a batch under one of the agent's ids. */
  predicate PostsNone(a: Step, ids: set<BatchId>) {
    a.Api? && a.api.DoUpsertAgent? ==> a.api.batch.batchId !in ids
  }

  predicate OthersOnly(steps: seq<Step>, ids: set<BatchId>) {
    forall i :: 0 <= i < |steps| ==> PostsNone(steps[i], ids)
  }

  lemma ApiUnforged(s: State, p: Proc, a: ApiAction, all: seq<TelemetryBatch>, ids: set<BatchId>)
    requires ApiEnabled(s, p, a) && Unforged(s.apis, s.db.batches, all, ids)
    requires a.DoUpsertAgent? ==> Respects(a.batch, all, ids)
    ensures var t := ApiNext(s, p, a); Unforged(t.apis, t.db.batches, all, ids)
  {
  }

  lemma StepUnforged(c: Config, s: State, a: Step, all: seq<TelemetryBatch>, ids: set<BatchId>)
    requires Enabled(s, a) && Unforged(s.apis, s.db.batches, all, ids) && PostsNone(a, ids)
    ensures var t := Next(c, s, a); Unforged(t.apis, t.db.batches, all, ids)
  {
    match a
    case Api(p, x) => ApiUnforged(s, p, x, all, ids);
    case Relay(p, x) => RelayFrame(s, p, x);
    case Deliver(p, x) => DeliveryFrame(c, s, p, x);
    case Process(p, x) => ProcessFrame(c, s, p, x);
    case Read(p, x) => ReaderFrame(s, p, x);
    case _ =>
  }

  /** A batch stored under one of the agent's ids is the agent's batch. */
  lemma StoredIsOurs(c: Config, s: State, all: seq<TelemetryBatch>, ids: set<BatchId>, b: TelemetryBatch)
    requires Reachable(c, s) && Unforged(s.apis, s.db.batches, all, ids)
    requires forall i, j :: 0 <= i < j < |all| ==> all[i].batchId != all[j].batchId
    requires b in all && b.batchId in ids && b.batchId in s.db.batches
    ensures IsStored(s.db.batches, b)
  {
    AcceptedOnce(c, s, b.batchId);
    assert Respects(s.db.batches[b.batchId].payload, all, ids);
  }

  lemma StepKeepsBatch(c: Config, s: State, a: Step, b: BatchId)
    requires Reachable(c, s) && Enabled(s, a) && b in s.db.batches
    ensures b in Next(c, s, a).db.batches
  {
    ReachableInvariant(c, s);
    StepKeeps(c, s, a);
  }

  lemma CommitStoresBatch(c: Config, s: State, a: Step, p: Proc, b: Option<TelemetryBatch>)
    requires Reachable(c, s) && Commits(s, a, p, b)
    ensures b.Some? && b.value.batchId in Next(c, s, a).db.batches
  {
    RequestRecorded(c, s, p, a.api.event, a.api.createdAt, a.api.correlation);
  }

  // ---------- the agent waits ----------

  /** Let the others act, and notice whether the request for `b` at process `p` commits. */
  method Play(d: Deployment, steps: seq<Step>, p: Proc, b: Option<TelemetryBatch>, ghost all: seq<TelemetryBatch>, ghost ids: set<BatchId>)
    returns (committed: bool)
    requires d.Valid() && OthersOnly(steps, ids) && Unforged(d.state.apis, d.state.db.batches, all, ids)
    modifies d
    ensures d.Valid() && Reaches(d.config, old(d.state), d.state)
    ensures d.state == Played(d.config, old(d.state), steps)
    ensures committed <==> CommitsIn(d.config, old(d.state), steps, p, b)
    ensures Unforged(d.state.apis, d.state.db.batches, all, ids)
    ensures committed ==> b.Some? && b.value.batchId in d.state.db.batches
    ensures old(d.state).db.batches.Keys <= d.state.db.batches.Keys
  {
    ghost var start := d.state;
    ReachesSelf(d.config, start);
    committed := false;
    for i := 0 to |steps|
      invariant d.Valid() && Reaches(d.config, start, d.state)
      invariant d.state == Played(d.config, start, steps[..i])
      invariant committed <==> CommitsIn(d.config, start, steps[..i], p, b)
      invariant Unforged(d.state.apis, d.state.db.batches, all, ids)
      invariant committed ==> b.Some? && b.value.batchId in d.state.db.batches
      invariant start.db.batches.Keys <= d.state.db.batches.Keys
    {
      assert steps[..i + 1][..i] == steps[..i];
      var commits := TakeIfEnabled(d, steps[i], p, b, all, ids);
      committed := committed || commits;
    }
    assert steps[..|steps|] == steps;
  }

  method TakeIfEnabled(d: Deployment, a: Step, p: Proc, b: Option<TelemetryBatch>, ghost all: seq<TelemetryBatch>, ghost ids: set<BatchId>)
    returns (commits: bool)
    requires d.Valid() && PostsNone(a, ids) && Unforged(d.state.apis, d.state.db.batches, all, ids)
    modifies d
    ensures d.Valid()
    ensures forall s0 :: Reaches(d.config, s0, old(d.state)) ==> Reaches(d.config, s0, d.state)
    ensures d.state == if Enabled(old(d.state), a) then Next(d.config, old(d.state), a) else old(d.state)
    ensures commits <==> Commits(old(d.state), a, p, b)
    ensures Unforged(d.state.apis, d.state.db.batches, all, ids)
    ensures commits ==> b.Some? && b.value.batchId in d.state.db.batches
    ensures old(d.state).db.batches.Keys <= d.state.db.batches.Keys
  {
    ghost var s := d.state;
    commits := Commits(d.state, a, p, b);
    if Enabled(d.state, a) {
      StepUnforged(d.config, s, a, all, ids);
      forall x | x in s.db.batches ensures x in Next(d.config, s, a).db.batches {
        StepKeepsBatch(d.config, s, a, x);
      }
      if commits {
        CommitStoresBatch(d.config, s, a, p, b);
      }
      d.Take(a);
    }
  }
}
