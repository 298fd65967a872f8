/**
 The telemetry contract shared by agents, API and workers
 (src/fleetpulse/telemetry.py). Times are integers and percentages reals; the
 fields no decision depends on (load, network, processes) are not modelled.
 */
module Telemetry {
  type BatchId = nat
  type AgentId = string

  datatype Sample = Sample(observedAt: int, cpu: real, memory: real, disks: seq<real>)

  /** The raw document; `TelemetryBatch` below is one that validates. */
  datatype BatchDoc = BatchDoc(batchId: BatchId, agentId: AgentId, hostname: string, samples: seq<Sample>)

  predicate Percentage(x: real) {
    0.0 <= x <= 100.0
  }

  predicate ValidSample(s: Sample) {
    && Percentage(s.cpu)
    && Percentage(s.memory)
    && 1 <= |s.disks| <= 32
    && forall i :: 0 <= i < |s.disks| ==> Percentage(s.disks[i])
  }

  predicate AgentHeadChar(c: char) {
    'a' <= c <= 'z' || 'A' <= c <= 'Z' || '0' <= c <= '9'
  }

  predicate AgentTailChar(c: char) {
    AgentHeadChar(c) || c == '.' || c == '_' || c == '-'
  }

  /** The pattern `^[a-zA-Z0-9][a-zA-Z0-9._-]{0,127}$`. */
  predicate ValidAgentId(a: AgentId) {
    && 1 <= |a| <= 128
    && AgentHeadChar(a[0])
    && forall i :: 1 <= i < |a| ==> AgentTailChar(a[i])
  }

  predicate ValidBatch(b: BatchDoc) {
    && ValidAgentId(b.agentId)
    && 1 <= |b.hostname| <= 255
    && 1 <= |b.samples| <= 100
    && forall i :: 0 <= i < |b.samples| ==> ValidSample(b.samples[i])
  }

  type TelemetryBatch = b: BatchDoc | ValidBatch(b)
    witness BatchDoc(0, "a", "h", [Sample(0, 0.0, 0.0, [0.0])])

  /** The sample at `k` is the latest, and the first of those. */
  ghost predicate IsLatest(ss: seq<Sample>, k: nat) {
    && k < |ss|
    && (forall j :: 0 <= j < |ss| ==> ss[j].observedAt <= ss[k].observedAt)
    && (forall j :: 0 <= j < k ==> ss[j].observedAt < ss[k].observedAt)
  }

  /** Position of the first sample with the greatest `observed_at`, as Python's `max` picks it. */
  function LatestIndex(ss: seq<Sample>): (k: nat)
    requires |ss| > 0
    ensures k < |ss|
    ensures forall j :: 0 <= j < |ss| ==> ss[j].observedAt <= ss[k].observedAt
    ensures forall j :: 0 <= j < k ==> ss[j].observedAt < ss[k].observedAt
  {
    var n := |ss| - 1;
    if n == 0 then 0
    else
      var k := LatestIndex(ss[..n]);
      if ss[n].observedAt > ss[k].observedAt then n else k
  }

  function Latest(ss: seq<Sample>): (s: Sample)
    requires |ss| > 0
  {
    ss[LatestIndex(ss)]
  }

  /** The largest element of a non-empty list. */
  function MaxOf(xs: seq<real>): (m: real)
    requires |xs| > 0
    ensures m in xs
    ensures forall j :: 0 <= j < |xs| ==> xs[j] <= m
  {
    var n := |xs| - 1;
    if n == 0 then xs[0]
    else
      var m := MaxOf(xs[..n]);
      if xs[n] > m then xs[n] else m
  }

  function MaxTime(ss: seq<Sample>): (t: int)
    requires |ss| > 0
    ensures exists j :: 0 <= j < |ss| && ss[j].observedAt == t
    ensures forall j :: 0 <= j < |ss| ==> ss[j].observedAt <= t
  {
    var n := |ss| - 1;
    if n == 0 then ss[0].observedAt
    else
      var t := MaxTime(ss[..n]);
      if ss[n].observedAt > t then ss[n].observedAt else t
  }

  function MinTime(ss: seq<Sample>): (t: int)
    requires |ss| > 0
    ensures exists j :: 0 <= j < |ss| && ss[j].observedAt == t
    ensures forall j :: 0 <= j < |ss| ==> t <= ss[j].observedAt
  {
    var n := |ss| - 1;
    if n == 0 then ss[0].observedAt
    else
      var t := MinTime(ss[..n]);
      if ss[n].observedAt < t then ss[n].observedAt else t
  }

  /** What the API stores as `observed_end` is what the worker later calls the latest sample's time. */
  lemma LatestIsObservedEnd(ss: seq<Sample>)
    requires |ss| > 0
    ensures Latest(ss).observedAt == MaxTime(ss)
  {
    var k := LatestIndex(ss);
    var j :| 0 <= j < |ss| && ss[j].observedAt == MaxTime(ss);
    assert ss[k].observedAt <= MaxTime(ss) && ss[j].observedAt <= ss[k].observedAt;
  }
}
