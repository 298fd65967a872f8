/**
 How the agent's samples become batches (src/fleetpulse/agent/main.py:43-55): every `batch_size`
 samples make one, and what is left at the end makes a last one.
 */
module Packing {
  import opened Telemetry
  import opened Ledgers
  import Pipeline

  datatype Settings = Settings(agentId: AgentId, hostname: string, batchSize: nat, retryBase: real, retryCap: real)

  predicate ValidSettings(s: Settings) {
    && ValidAgentId(s.agentId)
    && 1 <= |s.hostname| <= 255
    && 1 <= s.batchSize <= 100
    && 0.0 < s.retryBase
    && 0.0 < s.retryCap
  }

  /**
   The time between a request and the next round: the API process that would serve the request and
   its clock, the steps everybody takes, whether an answer comes back, and the error if it does not.
   */
  datatype Exchange = Exchange(p: Pipeline.Proc, at: int, steps: seq<Pipeline.Step>, answered: bool, error: string)

  /** Once round the agent's loop, as the outside world decides it; `draw` is what `random.uniform` gives this time. */
  datatype Tick = Tick(sample: Sample, batchId: BatchId, bytes: nat, now: real, exchange: Exchange, failedAt: real,
                       draw: (real, real) -> real)

  predicate ValidSamples(buffer: seq<Sample>) {
    forall i :: 0 <= i < |buffer| ==> ValidSample(buffer[i])
  }

  function Samples(ticks: seq<Tick>): (r: seq<Sample>)
    ensures |r| == |ticks| && forall i :: 0 <= i < |ticks| ==> r[i] == ticks[i].sample
  {
    seq(|ticks|, i requires 0 <= i < |ticks| => ticks[i].sample)
  }

  /** The batch of these samples, with the id, size and time of the tick that spools it. */
  function BatchOf(s: Settings, t: Tick, buffer: seq<Sample>): (r: Spooled)
    requires ValidSettings(s) && 1 <= |buffer| <= s.batchSize && ValidSamples(buffer)
  {
    Spooled(BatchDoc(t.batchId, s.agentId, s.hostname, buffer), t.bytes, t.now)
  }

  /** The batches spooled in these rounds, and the samples still in the buffer. */
  ghost function Packed(s: Settings, ticks: seq<Tick>): (r: (seq<Spooled>, seq<Sample>))
    requires ValidSettings(s) && ValidSamples(Samples(ticks))
    ensures |r.1| < s.batchSize && ValidSamples(r.1)
  {
    if ticks == [] then ([], [])
    else
      var n := |ticks| - 1;
      SamplesPrefix(ticks);
      var (done, buffer) := Packed(s, ticks[..n]);
      var full := buffer + [ticks[n].sample];
      assert Samples(ticks)[n] == ticks[n].sample;
      if |full| < s.batchSize then (done, full) else (done + [BatchOf(s, ticks[n], full)], [])
  }

  lemma SamplesPrefix(ticks: seq<Tick>)
    requires ticks != [] && ValidSamples(Samples(ticks))
    ensures Samples(ticks) == Samples(ticks[..|ticks| - 1]) + [ticks[|ticks| - 1].sample]
    ensures ValidSamples(Samples(ticks[..|ticks| - 1]))
  {
    var front := Samples(ticks[..|ticks| - 1]);
    forall i | 0 <= i < |front| ensures ValidSample(front[i]) {
      assert Samples(ticks)[i] == ticks[i].sample;
    }
  }

  /** Everything spooled when the process has also flushed its buffer. */
  ghost function PackedAll(s: Settings, ticks: seq<Tick>, last: Tick): (r: seq<Spooled>)
    requires ValidSettings(s) && ValidSamples(Samples(ticks))
  {
    var (done, buffer) := Packed(s, ticks);
    if buffer == [] then done else done + [BatchOf(s, last, buffer)]
  }

  /** The samples of all batches, in order. */
  ghost function Flatten(batches: seq<Spooled>): (r: seq<Sample>) {
    if batches == [] then [] else Flatten(batches[..|batches| - 1]) + batches[|batches| - 1].batch.samples
  }

  lemma FlattenAppend(batches: seq<Spooled>, x: Spooled)
    ensures Flatten(batches + [x]) == Flatten(batches) + x.batch.samples
  {
    assert (batches + [x])[..|batches|] == batches;
  }

  lemma FlattenFull(batches: seq<Spooled>, x: Spooled)
    ensures Flatten(batches + [x]) + [] == Flatten(batches) + x.batch.samples
  {
    FlattenAppend(batches, x);
  }

  /** No sample is lost, duplicated or reordered. */
  lemma {:induction false} PackedSamples(s: Settings, ticks: seq<Tick>)
    requires ValidSettings(s) && ValidSamples(Samples(ticks))
    ensures Flatten(Packed(s, ticks).0) + Packed(s, ticks).1 == Samples(ticks)
  {
    if ticks != [] {
      var n := |ticks| - 1;
      SamplesPrefix(ticks);
      PackedSamples(s, ticks[..n]);
      var (done, buffer) := Packed(s, ticks[..n]);
      var full := buffer + [ticks[n].sample];
      assert Flatten(done) + full == (Flatten(done) + buffer) + [ticks[n].sample];
      if |full| >= s.batchSize {
        FlattenFull(done, BatchOf(s, ticks[n], full));
      }
    }
  }

  lemma PackedAllSamples(s: Settings, ticks: seq<Tick>, last: Tick)
    requires ValidSettings(s) && ValidSamples(Samples(ticks))
    ensures Flatten(PackedAll(s, ticks, last)) == Samples(ticks)
  {
    PackedSamples(s, ticks);
    var (done, buffer) := Packed(s, ticks);
    if buffer != [] {
      FlattenAppend(done, BatchOf(s, last, buffer));
    } else {
      assert Flatten(done) + buffer == Flatten(done);
    }
  }

  /** Where the `j`-th group starts. */
  ghost function Start(size: nat, j: nat): (n: nat) {
    if j == 0 then 0 else Start(size, j - 1) + size
  }

  lemma {:induction false} StartIsMultiple(size: nat, j: nat)
    ensures Start(size, j) == size * j
  {
    if j > 0 {
      StartIsMultiple(size, j - 1);
      assert size * j == size * (j - 1) + size;
    }
  }

  /** How many batches there are: the samples are the full batches' and the buffer's. */
  lemma {:induction false} PackedCount(s: Settings, ticks: seq<Tick>)
    requires ValidSettings(s) && ValidSamples(Samples(ticks))
    ensures |ticks| == Start(s.batchSize, |Packed(s, ticks).0|) + |Packed(s, ticks).1|
  {
    if ticks != [] {
      var n := |ticks| - 1;
      SamplesPrefix(ticks);
      PackedCount(s, ticks[..n]);
    }
  }

  /** The batch holds the samples from `from` to `to`, spooled by the tick that completed them. */
  ghost predicate IsGroupAt(s: Settings, ticks: seq<Tick>, from: nat, to: nat, x: Spooled) {
    && from < to <= |ticks|
    && x.batch.samples == Samples(ticks)[from..to]
    && x.batch.agentId == s.agentId && x.batch.hostname == s.hostname
    && x.batch.batchId == ticks[to - 1].batchId && x.bytes == ticks[to - 1].bytes && x.createdAt == ticks[to - 1].now
  }

  /** The `j`-th batch is the `j`-th group of `batch_size` samples. */
  ghost predicate IsGroup(s: Settings, ticks: seq<Tick>, j: nat, x: Spooled) {
    IsGroupAt(s, ticks, s.batchSize * j, s.batchSize * (j + 1), x)
  }

  lemma GroupExtends(s: Settings, ticks: seq<Tick>, from: nat, to: nat, x: Spooled)
    requires ticks != [] && IsGroupAt(s, ticks[..|ticks| - 1], from, to, x)
    ensures IsGroupAt(s, ticks, from, to, x)
  {
    var front := ticks[..|ticks| - 1];
    assert Samples(ticks)[from..to] == Samples(front)[from..to];
  }

  /** A full buffer is the group that ends with this tick. */
  lemma GroupCompletes(s: Settings, ticks: seq<Tick>, buffer: seq<Sample>)
    requires ValidSettings(s) && ticks != [] && |buffer| < |ticks| && |buffer| + 1 <= s.batchSize
    requires ValidSamples(buffer + [ticks[|ticks| - 1].sample])
    requires buffer == Samples(ticks[..|ticks| - 1])[|ticks| - 1 - |buffer|..]
    ensures IsGroupAt(s, ticks, |ticks| - 1 - |buffer|, |ticks|, BatchOf(s, ticks[|ticks| - 1], buffer + [ticks[|ticks| - 1].sample]))
  {
    var n := |ticks| - 1;
    assert Samples(ticks)[n - |buffer|..|ticks|] == buffer + [ticks[n].sample];
  }

  /** The buffer holds the samples since the last full group. */
  lemma {:induction false} PackedBuffer(s: Settings, ticks: seq<Tick>)
    requires ValidSettings(s) && ValidSamples(Samples(ticks))
    ensures |Packed(s, ticks).1| <= |ticks|
    ensures Packed(s, ticks).1 == Samples(ticks)[|ticks| - |Packed(s, ticks).1|..]
  {
    if ticks != [] {
      var n := |ticks| - 1;
      SamplesPrefix(ticks);
      PackedBuffer(s, ticks[..n]);
    }
  }

  lemma {:induction false} PackedFrom(s: Settings, ticks: seq<Tick>, j: nat)
    requires ValidSettings(s) && ValidSamples(Samples(ticks)) && j < |Packed(s, ticks).0|
    ensures IsGroupAt(s, ticks, Start(s.batchSize, j), Start(s.batchSize, j + 1), Packed(s, ticks).0[j])
  {
    var n := |ticks| - 1;
    SamplesPrefix(ticks);
    var (done, buffer) := Packed(s, ticks[..n]);
    if j < |done| {
      PackedFrom(s, ticks[..n], j);
      GroupExtends(s, ticks, Start(s.batchSize, j), Start(s.batchSize, j + 1), done[j]);
    } else {
      PackedCount(s, ticks[..n]);
      PackedBuffer(s, ticks[..n]);
      GroupCompletes(s, ticks, buffer);
    }
  }

  /** Every batch but the flush is a full group, under the id, size and time of the tick that completed it. */
  lemma PackedGroups(s: Settings, ticks: seq<Tick>, j: nat)
    requires ValidSettings(s) && ValidSamples(Samples(ticks)) && j < |Packed(s, ticks).0|
    ensures IsGroup(s, ticks, j, Packed(s, ticks).0[j])
  {
    PackedFrom(s, ticks, j);
    StartIsMultiple(s.batchSize, j);
    StartIsMultiple(s.batchSize, j + 1);
  }

  /** The last batch holds the samples since the last full group, under the id, size and time of the flush. */
  ghost predicate IsFlush(s: Settings, ticks: seq<Tick>, last: Tick, all: seq<Spooled>)
    requires ValidSettings(s) && ValidSamples(Samples(ticks))
  {
    var n := |Packed(s, ticks).0|;
    && |all| == n + 1 && s.batchSize * n <= |ticks|
    && all[n].batch.samples == Samples(ticks)[s.batchSize * n..]
    && all[n].batch.agentId == s.agentId && all[n].batch.hostname == s.hostname
    && all[n].batch.batchId == last.batchId && all[n].bytes == last.bytes && all[n].createdAt == last.now
  }

  /**
   The batches' samples are the samples taken, in order, and every batch but the flush is a full
   group under the id, size and time of the tick that completed it.
   */
  ghost predicate PackedWell(s: Settings, ticks: seq<Tick>, last: Tick)
    requires ValidSettings(s) && ValidSamples(Samples(ticks))
  {
    && Flatten(PackedAll(s, ticks, last)) == Samples(ticks)
    && Packed(s, ticks).0 <= PackedAll(s, ticks, last)
    && (Packed(s, ticks).1 == [] ==> PackedAll(s, ticks, last) == Packed(s, ticks).0)
    && (Packed(s, ticks).1 != [] ==> IsFlush(s, ticks, last, PackedAll(s, ticks, last)))
    && (forall j: nat :: j < |Packed(s, ticks).0| ==> IsGroup(s, ticks, j, Packed(s, ticks).0[j]))
  }

  lemma AllPackedWell(s: Settings, ticks: seq<Tick>, last: Tick)
    requires ValidSettings(s) && ValidSamples(Samples(ticks))
    ensures PackedWell(s, ticks, last)
  {
    PackedAllSamples(s, ticks, last);
    PackedCount(s, ticks);
    StartIsMultiple(s.batchSize, |Packed(s, ticks).0|);
    PackedBuffer(s, ticks);
    forall j: nat | j < |Packed(s, ticks).0| ensures IsGroup(s, ticks, j, Packed(s, ticks).0[j]) {
      PackedGroups(s, ticks, j);
    }
  }
}
