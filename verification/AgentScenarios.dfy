/**
 A run of the agent that ends itself: a batch whose requests are never answered fails until its
 back-off can no longer be computed, and the exception leaves the loop.
 */
module AgentScenarios {
  import opened Wrappers
  import opened Telemetry
  import opened Spool
  import opened Backoff
  import opened Ledgers
  import opened Packing
  import opened Agent
  import Fleet
  import Deployment

  /** One cap after another. */
  function Clock(cap: real, n: nat): (t: real) {
    if n == 0 then 0.0 else Clock(cap, n - 1) + cap
  }

  lemma {:induction false} ClockRuns(cap: real, n: nat)
    requires 0.0 < cap
    ensures 0.0 <= Clock(cap, n)
  {
    if n > 0 {
      ClockRuns(cap, n - 1);
    }
  }

  /** A round in which nobody answers. */
  function Silence(sample: Sample, id: BatchId, now: real, draw: (real, real) -> real): (t: Tick) {
    Tick(sample, id, 0, now, Exchange(0, 0, [], false, "timeout"), now, draw)
  }

  function Silences(sample: Sample, from: BatchId, cap: real, draws: seq<(real, real) -> real>): (r: seq<Tick>)
    ensures |r| == |draws| && forall i :: 0 <= i < |draws| ==> r[i] == Silence(sample, from + i, Clock(cap, i), draws[i])
  {
    seq(|draws|, i requires 0 <= i < |draws| => Silence(sample, from + i, Clock(cap, i), draws[i]))
  }

  /** Every round is silent, one cap after the one before. */
  ghost predicate AllSilent(ticks: seq<Tick>, sample: Sample, from: BatchId, cap: real) {
    forall i :: 0 <= i < |ticks| ==> ticks[i] == Silence(sample, from + i, Clock(cap, i), ticks[i].draw)
  }

  /** The batch is the only row from before the start; it has failed `n` times and is due by `due`. */
  ghost predicate IsStuck(x: Row, b: TelemetryBatch, n: nat, due: real) {
    x.batch == b && x.attempts == n && x.nextAttemptAt <= due
  }

  ghost predicate Stuck(rows: seq<Row>, b: TelemetryBatch, n: nat, due: real) {
    && (exists x :: x in rows && x.createdAt < 0.0)
    && (forall x :: x in rows && x.createdAt < 0.0 ==> IsStuck(x, b, n, due))
    && |rows| <= n + 1
    && TotalBytes(rows) == 0
  }

  /** Collecting may add a newer row, and there is room for it. */
  lemma StuckSpools(rows: seq<Row>, b: TelemetryBatch, n: nat, due: real, x: TelemetryBatch, now: real, kept: seq<Row>, gone: seq<Row>,
                    maxBatches: nat, maxBytes: nat)
    requires Stuck(rows, b, n, due) && 0.0 <= now && n + 2 <= maxBatches
    requires Evicts(Insert(rows, x, 0, now), kept, gone, maxBatches, maxBytes)
    ensures (exists y :: y in kept && y.createdAt < 0.0) && (forall y :: y in kept && y.createdAt < 0.0 ==> IsStuck(y, b, n, due))
    ensures |kept| <= n + 2 && TotalBytes(kept) == 0
  {
    var before := Insert(rows, x, 0, now);
    if !HasId(rows, x.batchId) {
      TotalSnoc(rows, before[|rows|]);
    }
    FittingEvictsNothing(before, kept, gone, maxBatches, maxBytes);
    SubsetTotal(kept, before);
    var first :| first in rows && first.createdAt < 0.0;
    assert first in multiset(before);
    assert first in multiset(kept);
    forall y | y in kept && y.createdAt < 0.0 ensures IsStuck(y, b, n, due) {
      assert y in multiset(before);
      assert y in rows;
    }
  }

  lemma StuckCollects(e: Env, m: Moment, t: Tick, gone: seq<Row>, mid: Moment, b: TelemetryBatch, n: nat, due: real)
    requires Stuck(m.rows, b, n, due) && 0.0 <= t.now && t.bytes == 0 && n + 2 <= e.maxBatches
    requires Collects(e, m, t, gone, mid)
    ensures (exists y :: y in mid.rows && y.createdAt < 0.0) && (forall y :: y in mid.rows && y.createdAt < 0.0 ==> IsStuck(y, b, n, due))
    ensures |mid.rows| <= n + 2 && TotalBytes(mid.rows) == 0
  {
    var buffer := m.samples + [t.sample];
    if |buffer| >= e.settings.batchSize {
      var x := BatchOf(e.settings, t, buffer);
      StuckSpools(m.rows, b, n, due, x.batch, t.now, mid.rows, gone, e.maxBatches, e.maxBytes);
    }
  }

  lemma FailStuckRow(row: Row, b: TelemetryBatch, n: nat, due: real, error: string, at: real, next: real)
    requires row.createdAt < 0.0 ==> IsStuck(row, b, n, due)
    ensures var after := FailRow(row, b.batchId, error, at, next);
            after.createdAt == row.createdAt && (after.createdAt < 0.0 ==> IsStuck(after, b, n + 1, next))
  {
  }

  lemma {:induction false} FailStuck(rows: seq<Row>, b: TelemetryBatch, n: nat, due: real, error: string, at: real, next: real)
    requires exists x :: x in rows && x.createdAt < 0.0
    requires forall x :: x in rows && x.createdAt < 0.0 ==> IsStuck(x, b, n, due)
    requires |rows| <= n + 2 && TotalBytes(rows) == 0
    ensures Stuck(FailRows(rows, b.batchId, error, at, next), b, n + 1, next)
  {
    var after := FailRows(rows, b.batchId, error, at, next);
    FailKeepsBytes(rows, b.batchId, error, at, next);
    forall i | 0 <= i < |rows|
      ensures after[i].createdAt == rows[i].createdAt
      ensures after[i].createdAt < 0.0 ==> IsStuck(after[i], b, n + 1, next)
    {
      assert rows[i] in rows;
      FailStuckRow(rows[i], b, n, due, error, at, next);
    }
    var i :| 0 <= i < |rows| && rows[i].createdAt < 0.0;
    assert after[i] in after;
  }

  /** The stuck batch is picked and fails again; the 1025th failure is the overflow. */
  lemma StuckRound(e: Env, m: Moment, t: Tick, x: Choice, m': Moment, b: TelemetryBatch, n: nat)
    requires IsRound(e, m, t, x, m') && Stuck(m.rows, b, n, t.now)
    requires 0.0 <= t.now && t.failedAt == t.now && t.bytes == 0 && !t.exchange.answered && n + 2 <= e.maxBatches
    ensures Overflows(e.config, x.mid, t, x.pick) <==> n > MAX_FLOAT_EXPONENT
    ensures n <= MAX_FLOAT_EXPONENT ==> Stuck(m'.rows, b, n + 1, x.next) && x.next <= t.now + e.settings.retryCap
  {
    StuckCollects(e, m, t, x.gone, x.mid, b, n, t.now);
    var rows := x.mid.rows;
    var i :| 0 <= i < |rows| && rows[i].createdAt < 0.0;
    assert rows[i] in rows;
    assert IsDue(rows[i], t.now);
    var k := x.pick.value;
    assert rows[k] in rows && rows[k].createdAt < 0.0;
    if n <= MAX_FLOAT_EXPONENT {
      FailStuck(rows, b, n, t.now, t.exchange.error, t.failedAt, x.next);
    }
  }

  lemma StuckLater(rows: seq<Row>, b: TelemetryBatch, n: nat, due: real, later: real)
    requires Stuck(rows, b, n, due) && due <= later
    ensures Stuck(rows, b, n, later)
  {
  }

  lemma {:induction false} StuckTrace(e: Env, ticks: seq<Tick>, trace: seq<Moment>, choices: seq<Choice>, ok: bool,
                                      b: TelemetryBatch, sample: Sample, from: BatchId, i: nat)
    requires IsTrace(e, ticks, trace, choices, ok) && i <= |choices| && i <= MAX_FLOAT_EXPONENT + 1
    requires AllSilent(ticks, sample, from, e.settings.retryCap) && 0.0 < e.settings.retryCap
    requires Stuck(trace[0].rows, b, 0, 0.0) && MAX_FLOAT_EXPONENT + 3 <= e.maxBatches
    ensures Stuck(trace[i].rows, b, i, Clock(e.settings.retryCap, i))
  {
    if i > 0 {
      var n := i - 1;
      StuckTrace(e, ticks, trace, choices, ok, b, sample, from, n);
      assert ticks[n] == Silence(sample, from + n, Clock(e.settings.retryCap, n), ticks[n].draw);
      ClockRuns(e.settings.retryCap, n);
      assert IsRound(e, trace[n], ticks[n], choices[n], trace[n + 1]);
      StuckRound(e, trace[n], ticks[n], choices[n], trace[n + 1], b, n);
      StuckLater(trace[i].rows, b, i, choices[n].next, Clock(e.settings.retryCap, i));
    }
  }

  /** A trace that starts with the batch stuck does not survive 1025 silent rounds. */
  lemma StuckEnds(e: Env, ticks: seq<Tick>, trace: seq<Moment>, choices: seq<Choice>, ok: bool,
                  b: TelemetryBatch, sample: Sample, from: BatchId)
    requires IsTrace(e, ticks, trace, choices, ok) && (|choices| < |ticks| ==> !ok)
    requires |ticks| == MAX_FLOAT_EXPONENT + 2 && AllSilent(ticks, sample, from, e.settings.retryCap)
    requires 0.0 < e.settings.retryCap && Stuck(trace[0].rows, b, 0, 0.0) && MAX_FLOAT_EXPONENT + 3 <= e.maxBatches
    ensures !ok && |choices| == |ticks|
  {
    var n := |choices| - 1;
    StuckTrace(e, ticks, trace, choices, ok, b, sample, from, n);
    assert ticks[n] == Silence(sample, from + n, Clock(e.settings.retryCap, n), ticks[n].draw);
    ClockRuns(e.settings.retryCap, n);
    assert IsRound(e, trace[n], ticks[n], choices[n], trace[n + 1]);
    StuckRound(e, trace[n], ticks[n], choices[n], trace[n + 1], b, n);
  }

  ghost function IdsFrom(from: BatchId, n: nat): (r: set<BatchId>)
    ensures forall i :: i in r <==> from <= i < from + n
  {
    if n == 0 then {} else IdsFrom(from, n - 1) + {from + n - 1}
  }

  lemma OneRow(row: Row)
    requires row.createdAt < 0.0 && row.attempts == 0 && row.nextAttemptAt == 0.0 && row.bytes == 0
    ensures Stuck([row], row.batch, 0, 0.0) && DistinctIds([row])
  {
    assert row in [row];
    assert [row][..0] == [];
  }

  lemma SilentTicksOk(ticks: seq<Tick>, sample: Sample, from: BatchId, cap: real, ids: set<BatchId>)
    requires ValidSample(sample) && AllSilent(ticks, sample, from, cap)
    requires forall i :: from <= i < from + |ticks| ==> i in ids
    requires forall i :: 0 <= i < |ticks| ==> IsUniform(ticks[i].draw)
    ensures TicksOk(ticks, ids) && DistinctDraws(ticks, from + |ticks|)
  {
    var all := Samples(ticks);
    forall i | 0 <= i < |all| ensures ValidSample(all[i]) {
      assert all[i] == ticks[i].sample;
    }
  }

  /**
   An agent that finds one batch in its spool and gets no answer for 1025 rounds ends itself in the
   last of them, whatever its settings and whatever the random draws.
   */
  method SilenceEndsAgent(c: Fleet.Config, settings: Settings, batch: TelemetryBatch, sample: Sample, draws: seq<(real, real) -> real>)
    returns (agent: AgentProcess, ok: bool, rounds: nat)
    requires Fleet.ValidConfig(c) && ValidSettings(settings) && ValidSample(sample)
    requires |draws| == MAX_FLOAT_EXPONENT + 2 && forall i :: 0 <= i < |draws| ==> IsUniform(draws[i])
    ensures fresh(agent) && !ok && rounds == 1025
  {
    var pipeline := new Deployment.Deployment(c);
    var row := Row(batch, 0, 0, 0.0, None, -1.0, 0.0);
    OneRow(row);
    var spool := new BatchSpool(2000, 1024, [row]);
    var from := batch.batchId + 1;
    var ticks := Silences(sample, from, settings.retryCap, draws);
    ghost var ids := IdsFrom(batch.batchId, |ticks| + 2);
    agent := new AgentProcess(settings, spool, pipeline, ids);
    SilentTicksOk(ticks, sample, from, settings.retryCap, ids);
    ghost var start := agent.Now();
    ghost var trace, choices, flushed;
    ok, rounds, trace, choices, flushed := agent.Run(ticks, Silence(sample, from + |ticks|, 0.0, draws[0]));
    StuckEnds(agent.Setting(), ticks, trace, choices, ok, batch, sample, from);
  }
}
