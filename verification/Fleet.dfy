/**
 The worker's view tables, `fleet_state` and `incidents`, and the pure sequential
 meaning of applying one accepted batch (src/fleetpulse/worker/main.py:76-126).
 */
module Fleet {
  import opened Telemetry
  import opened Queueing

  datatype Config = Config(maxDeliveryAttempts: nat, cpuThreshold: real, memoryThreshold: real)

  predicate ValidConfig(c: Config) {
    && 1 <= c.maxDeliveryAttempts
    && Percentage(c.cpuThreshold)
    && Percentage(c.memoryThreshold)
  }

  datatype Kind = HighCpu | HighMemory {
    function Name(): (s: string) {
      if HighCpu? then "high_cpu" else "high_memory"
    }
  }

  datatype FleetRow = FleetRow(lastBatchId: BatchId, observedAt: int, cpu: real, memory: real, disk: real)

  /** An open incident; status, severity and summary are constants of the insert. */
  datatype Incident = Incident(agentId: AgentId, kind: Kind, batchId: BatchId, value: real, threshold: real)

  datatype View = View(fleet: map<AgentId, FleetRow>, incidents: map<string, Incident>)

  /** One committed `process_event` transaction: the event, the message it came by, the batch applied. */
  datatype Commit = Commit(event: EventId, msg: nat, batch: TelemetryBatch)

  const EMPTY := View(map[], map[])

  /** The deduplication key `{agent_id}:{incident_type}`. */
  function Key(agent: AgentId, kind: Kind): (s: string) {
    agent + ":" + kind.Name()
  }

  function ValueOf(b: TelemetryBatch, kind: Kind): (v: real)
  {
    if kind.HighCpu? then Latest(b.samples).cpu else Latest(b.samples).memory
  }

  function ThresholdOf(c: Config, kind: Kind): (v: real) {
    if kind.HighCpu? then c.cpuThreshold else c.memoryThreshold
  }

  /** The batch's latest sample meets the threshold of this kind. */
  predicate Crosses(c: Config, b: TelemetryBatch, kind: Kind) {
    ValueOf(b, kind) >= ThresholdOf(c, kind)
  }

  function RowOf(b: TelemetryBatch): (r: FleetRow)
  {
    var latest := Latest(b.samples);
    FleetRow(b.batchId, latest.observedAt, latest.cpu, latest.memory, MaxOf(latest.disks))
  }

  function IncidentOf(c: Config, b: TelemetryBatch, kind: Kind): (i: Incident)
  {
    Incident(b.agentId, kind, b.batchId, ValueOf(b, kind), ThresholdOf(c, kind))
  }

  /** The insert of this kind creates a row: the threshold is met and no open row has the key. */
  predicate Opens(c: Config, incidents: map<string, Incident>, b: TelemetryBatch, kind: Kind) {
    Crosses(c, b, kind) && Key(b.agentId, kind) !in incidents
  }

  function InsertIncident(c: Config, incidents: map<string, Incident>, b: TelemetryBatch, kind: Kind): (r: map<string, Incident>)
  {
    if Opens(c, incidents, b, kind) then incidents[Key(b.agentId, kind) := IncidentOf(c, b, kind)] else incidents
  }

  function ApplyBatch(c: Config, v: View, b: TelemetryBatch): (r: View)
  {
    View(v.fleet[b.agentId := RowOf(b)],
         InsertIncident(c, InsertIncident(c, v.incidents, b, HighCpu), b, HighMemory))
  }

  /** The tables after applying a history one batch at a time, in order, to empty tables. */
  ghost function Fold(c: Config, h: seq<Commit>): (v: View)
  {
    if h == [] then EMPTY
    else ApplyBatch(c, Fold(c, h[..|h| - 1]), h[|h| - 1].batch)
  }

  /** The key determines both the agent and the kind, because no kind's name contains a colon. */
  lemma KeyInjective(a: AgentId, k: Kind, b: AgentId, l: Kind)
    ensures Key(a, k) == Key(b, l) <==> a == b && k == l
  {
    var s, t := Key(a, k), Key(b, l);
    if s == t {
      assert s[|s| - 1] == k.Name()[|k.Name()| - 1];
      assert t[|t| - 1] == l.Name()[|l.Name()| - 1];
      assert k == l;
      assert a == s[..|s| - 1 - |k.Name()|];
      assert b == t[..|t| - 1 - |l.Name()|];
    }
  }

  // ---------- what a batch leaves in the tables, by its samples ----------

  /** The row has this sample's readings and the fullest of its disks. */
  ghost predicate RowHolds(row: FleetRow, b: BatchId, x: Sample) {
    && row.lastBatchId == b && row.observedAt == x.observedAt && row.cpu == x.cpu && row.memory == x.memory
    && row.disk in x.disks && forall i :: 0 <= i < |x.disks| ==> x.disks[i] <= row.disk
  }

  lemma RowOfLatest(b: TelemetryBatch, k: nat)
    requires IsLatest(b.samples, k)
    ensures RowHolds(RowOf(b), b.batchId, b.samples[k])
  {
    OneLatest(b.samples, k);
  }

  lemma OneLatest(ss: seq<Sample>, k: nat)
    requires IsLatest(ss, k)
    ensures LatestIndex(ss) == k
  {
  }

  lemma SomeLatest(b: TelemetryBatch)
    ensures IsLatest(b.samples, LatestIndex(b.samples))
  {
  }

  /** The cpu incident is about the latest sample's cpu, the memory incident about its memory. */
  lemma CrossingOfLatest(c: Config, b: TelemetryBatch, k: nat)
    requires IsLatest(b.samples, k)
    ensures Crosses(c, b, HighCpu) <==> b.samples[k].cpu >= c.cpuThreshold
    ensures Crosses(c, b, HighMemory) <==> b.samples[k].memory >= c.memoryThreshold
    ensures IncidentOf(c, b, HighCpu) == Incident(b.agentId, HighCpu, b.batchId, b.samples[k].cpu, c.cpuThreshold)
    ensures IncidentOf(c, b, HighMemory) == Incident(b.agentId, HighMemory, b.batchId, b.samples[k].memory, c.memoryThreshold)
  {
    OneLatest(b.samples, k);
  }

  lemma KeyText(agent: AgentId)
    ensures Key(agent, HighCpu) == agent + ":high_cpu" && Key(agent, HighMemory) == agent + ":high_memory"
  {
    assert agent + ":" + "high_cpu" == agent + ":high_cpu";
    assert agent + ":" + "high_memory" == agent + ":high_memory";
  }

  /** One incident table entry before and after: opened under `key` if `crossed` and not there yet, else as it was. */
  ghost predicate OpenedIf(before: map<string, Incident>, after: map<string, Incident>, key: string, crossed: bool, row: Incident) {
    && (key in after <==> key in before || crossed)
    && (key in before ==> key in after && after[key] == before[key])
    && (key in after && key !in before ==> after[key] == row)
  }

  /** What applying a batch with this latest sample does to both tables. */
  ghost predicate Absorbs(c: Config, v: View, b: TelemetryBatch, x: Sample, r: View) {
    && r.fleet.Keys == v.fleet.Keys + {b.agentId}
    && RowHolds(r.fleet[b.agentId], b.batchId, x)
    && (forall a :: a in v.fleet && a != b.agentId ==> r.fleet[a] == v.fleet[a])
    && OpenedIf(v.incidents, r.incidents, b.agentId + ":high_cpu", x.cpu >= c.cpuThreshold,
                Incident(b.agentId, HighCpu, b.batchId, x.cpu, c.cpuThreshold))
    && OpenedIf(v.incidents, r.incidents, b.agentId + ":high_memory", x.memory >= c.memoryThreshold,
                Incident(b.agentId, HighMemory, b.batchId, x.memory, c.memoryThreshold))
    && (forall key :: key != b.agentId + ":high_cpu" && key != b.agentId + ":high_memory" ==>
          (key in r.incidents <==> key in v.incidents) && (key in v.incidents ==> r.incidents[key] == v.incidents[key]))
  }

  lemma ApplyBatchExact(c: Config, v: View, b: TelemetryBatch, k: nat)
    requires IsLatest(b.samples, k)
    ensures Absorbs(c, v, b, b.samples[k], ApplyBatch(c, v, b))
  {
    RowOfLatest(b, k);
    CrossingOfLatest(c, b, k);
    KeyText(b.agentId);
    KeyInjective(b.agentId, HighCpu, b.agentId, HighMemory);
  }

  // ---------- what the fold holds ----------

  /** `k` is the last commit of this agent. */
  ghost predicate IsLastOf(h: seq<Commit>, agent: AgentId, k: nat) {
    k < |h| && h[k].batch.agentId == agent && forall j :: k < j < |h| ==> h[j].batch.agentId != agent
  }

  /** Commit `j` is this agent's and its latest sample met the threshold of this kind. */
  ghost predicate CrossesAt(c: Config, h: seq<Commit>, agent: AgentId, kind: Kind, j: nat) {
    j < |h| && h[j].batch.agentId == agent && Crosses(c, h[j].batch, kind)
  }

  /** `k` is the first such commit. */
  ghost predicate IsFirstCrossing(c: Config, h: seq<Commit>, agent: AgentId, kind: Kind, k: nat) {
    CrossesAt(c, h, agent, kind, k) && forall j: nat :: j < k ==> !CrossesAt(c, h, agent, kind, j)
  }

  lemma {:induction false} LastCommitRow(c: Config, h: seq<Commit>, agent: AgentId, k: nat)
    requires IsLastOf(h, agent, k)
    ensures agent in Fold(c, h).fleet && Fold(c, h).fleet[agent] == RowOf(h[k].batch)
  {
    var n := |h| - 1;
    if k < n {
      assert h[n].batch.agentId != agent;
      LastCommitRow(c, h[..n], agent, k);
    }
  }

  lemma {:induction false} NoCommitNoRow(c: Config, h: seq<Commit>, agent: AgentId)
    requires forall j :: 0 <= j < |h| ==> h[j].batch.agentId != agent
    ensures agent !in Fold(c, h).fleet
  {
    if h != [] {
      var n := |h| - 1;
      assert h[n].batch.agentId != agent;
      NoCommitNoRow(c, h[..n], agent);
    }
  }

  lemma {:induction false} SomeLastCommit(h: seq<Commit>, agent: AgentId, j: nat) returns (k: nat)
    requires j < |h| && h[j].batch.agentId == agent
    ensures IsLastOf(h, agent, k)
    decreases |h| - j
  {
    if i: nat :| j < i < |h| && h[i].batch.agentId == agent {
      k := SomeLastCommit(h, agent, i);
    } else {
      k := j;
    }
  }

  /**
   A fleet row exists exactly for the agents with a commit, and it is the row of that
   agent's last commit in commit order (not of its newest observation).
   */
  lemma FleetExact(c: Config, h: seq<Commit>, agent: AgentId)
    ensures agent in Fold(c, h).fleet <==> exists j :: 0 <= j < |h| && h[j].batch.agentId == agent
    ensures agent in Fold(c, h).fleet ==>
              exists k: nat :: IsLastOf(h, agent, k) && Fold(c, h).fleet[agent] == RowOf(h[k].batch)
  {
    if j: nat :| j < |h| && h[j].batch.agentId == agent {
      var k := SomeLastCommit(h, agent, j);
      LastCommitRow(c, h, agent, k);
    } else {
      NoCommitNoRow(c, h, agent);
    }
  }

  // ---------- when the fleet row is the newest observation ----------

  /** No commit of this agent observed anything later than `row`. */
  ghost predicate IsNewest(h: seq<Commit>, agent: AgentId, row: FleetRow) {
    forall j :: 0 <= j < |h| && h[j].batch.agentId == agent ==> RowOf(h[j].batch).observedAt <= row.observedAt
  }

  /** After the first `n` commits the agent's row, if there is one, is its newest observation. */
  ghost predicate NewestAfter(c: Config, h: seq<Commit>, agent: AgentId, n: nat)
    requires n <= |h|
  {
    agent in Fold(c, h[..n]).fleet ==> IsNewest(h[..n], agent, Fold(c, h[..n]).fleet[agent])
  }

  /** The guard the upsert does not have: commit `n` is no older than the row it replaces. */
  ghost predicate GuardHolds(c: Config, h: seq<Commit>, agent: AgentId, n: nat)
    requires n < |h|
  {
    h[n].batch.agentId == agent && agent in Fold(c, h[..n]).fleet ==>
      Fold(c, h[..n]).fleet[agent].observedAt <= RowOf(h[n].batch).observedAt
  }

  /** The agent's commits come in the order of their observations. */
  ghost predicate InObservationOrder(h: seq<Commit>, agent: AgentId) {
    forall i, j :: 0 <= i < j < |h| && h[i].batch.agentId == agent && h[j].batch.agentId == agent ==>
      RowOf(h[i].batch).observedAt <= RowOf(h[j].batch).observedAt
  }

  lemma {:induction false} OrderedIsNewest(c: Config, h: seq<Commit>, agent: AgentId)
    requires InObservationOrder(h, agent) && agent in Fold(c, h).fleet
    ensures IsNewest(h, agent, Fold(c, h).fleet[agent])
  {
    FleetExact(c, h, agent);
    var k: nat :| IsLastOf(h, agent, k) && Fold(c, h).fleet[agent] == RowOf(h[k].batch);
    forall j | 0 <= j < |h| && h[j].batch.agentId == agent
      ensures RowOf(h[j].batch).observedAt <= RowOf(h[k].batch).observedAt
    {
      assert j <= k;
    }
  }

  lemma {:induction false} OrderMakesNewest(c: Config, h: seq<Commit>, agent: AgentId, n: nat)
    requires InObservationOrder(h, agent) && n <= |h|
    ensures NewestAfter(c, h, agent, n)
  {
    if agent in Fold(c, h[..n]).fleet {
      OrderedIsNewest(c, h[..n], agent);
    }
  }

  /** A newest row after every commit means every commit met the guard. */
  lemma NewestMakesGuard(c: Config, h: seq<Commit>, agent: AgentId, n: nat)
    requires n < |h| && NewestAfter(c, h, agent, n + 1)
    ensures GuardHolds(c, h, agent, n)
  {
    var g, g' := h[..n], h[..n + 1];
    if h[n].batch.agentId == agent && agent in Fold(c, g).fleet {
      LastCommitRow(c, g', agent, n);
      FleetExact(c, g, agent);
      var k: nat :| IsLastOf(g, agent, k) && Fold(c, g).fleet[agent] == RowOf(g[k].batch);
      assert g'[k] == g[k];
    }
  }

  lemma {:induction false} GuardIsLatest(c: Config, g: seq<Commit>, x: Commit, i: nat)
    requires InObservationOrder(g, x.batch.agentId) && i < |g| && g[i].batch.agentId == x.batch.agentId
    requires x.batch.agentId in Fold(c, g).fleet ==>
               Fold(c, g).fleet[x.batch.agentId].observedAt <= RowOf(x.batch).observedAt
    ensures RowOf(g[i].batch).observedAt <= RowOf(x.batch).observedAt
  {
    FleetExact(c, g, x.batch.agentId);
    OrderedIsNewest(c, g, x.batch.agentId);
  }

  /** A commit that meets the guard keeps the agent's commits in order. */
  lemma {:induction false} GuardExtendsOrder(c: Config, h: seq<Commit>, agent: AgentId)
    requires h != [] && InObservationOrder(h[..|h| - 1], agent) && GuardHolds(c, h, agent, |h| - 1)
    ensures InObservationOrder(h, agent)
  {
    var n := |h| - 1;
    forall i, j | 0 <= i < j < |h| && h[i].batch.agentId == agent && h[j].batch.agentId == agent
      ensures RowOf(h[i].batch).observedAt <= RowOf(h[j].batch).observedAt
    {
      if j == n {
        GuardIsLatest(c, h[..n], h[n], i);
      } else {
        assert h[..n][i] == h[i] && h[..n][j] == h[j];
      }
    }
  }

  /** The guard at every commit keeps the commits in order. */
  lemma {:induction false} GuardMakesOrder(c: Config, h: seq<Commit>, agent: AgentId)
    requires forall n: nat :: n < |h| ==> GuardHolds(c, h, agent, n)
    ensures InObservationOrder(h, agent)
  {
    if h != [] {
      var g := h[..|h| - 1];
      forall k: nat | k < |g| ensures GuardHolds(c, g, agent, k) {
        assert g[..k] == h[..k];
        assert GuardHolds(c, h, agent, k);
      }
      GuardMakesOrder(c, g, agent);
      GuardExtendsOrder(c, h, agent);
    }
  }

  /**
   The agent's row is its newest observation after every prefix of the commits if and only if its
   commits come in observation order, which is if and only if every upsert would have passed a
   guard on `observed_at`.
   */
  lemma NewestIff(c: Config, h: seq<Commit>, agent: AgentId)
    ensures (forall n: nat :: n <= |h| ==> NewestAfter(c, h, agent, n)) <==> InObservationOrder(h, agent)
    ensures InObservationOrder(h, agent) <==> forall n: nat :: n < |h| ==> GuardHolds(c, h, agent, n)
  {
    if InObservationOrder(h, agent) {
      forall n: nat | n <= |h| ensures NewestAfter(c, h, agent, n) {
        OrderMakesNewest(c, h, agent, n);
      }
    }
    if forall n: nat :: n <= |h| ==> NewestAfter(c, h, agent, n) {
      forall n: nat | n < |h| ensures GuardHolds(c, h, agent, n) {
        assert NewestAfter(c, h, agent, n + 1);
        NewestMakesGuard(c, h, agent, n);
      }
    }
    if forall n: nat :: n < |h| ==> GuardHolds(c, h, agent, n) {
      GuardMakesOrder(c, h, agent);
    }
  }

  // ---------- incidents ----------

  /** Which keys one batch adds, and with what rows. */
  lemma ApplyIncidents(c: Config, v: View, b: TelemetryBatch, agent: AgentId, kind: Kind)
    ensures var r := ApplyBatch(c, v, b).incidents; var key := Key(agent, kind);
            && (key in r <==> key in v.incidents || (b.agentId == agent && Crosses(c, b, kind)))
            && (key in v.incidents ==> r[key] == v.incidents[key])
            && (key in r && key !in v.incidents ==> r[key] == IncidentOf(c, b, kind))
  {
    KeyInjective(agent, kind, b.agentId, HighCpu);
    KeyInjective(agent, kind, b.agentId, HighMemory);
    KeyInjective(b.agentId, HighCpu, b.agentId, HighMemory);
  }

  lemma FirstCrossingPrefix(c: Config, h: seq<Commit>, agent: AgentId, kind: Kind, k: nat)
    requires IsFirstCrossing(c, h, agent, kind, k)
    ensures var g := h[..|h| - 1];
            if k < |g| then IsFirstCrossing(c, g, agent, kind, k)
            else k == |g| && forall j: nat :: !CrossesAt(c, g, agent, kind, j)
  {
    var g := h[..|h| - 1];
    assert forall j: nat :: CrossesAt(c, g, agent, kind, j) ==> CrossesAt(c, h, agent, kind, j);
  }

  /** The row under a pair's key is the first crossing's. */
  lemma {:induction false} FirstCrossingRow(c: Config, h: seq<Commit>, agent: AgentId, kind: Kind, k: nat)
    requires IsFirstCrossing(c, h, agent, kind, k)
    ensures Key(agent, kind) in Fold(c, h).incidents
    ensures Fold(c, h).incidents[Key(agent, kind)] == IncidentOf(c, h[k].batch, kind)
  {
    var n := |h| - 1;
    var g := h[..n];
    ApplyIncidents(c, Fold(c, g), h[n].batch, agent, kind);
    FirstCrossingPrefix(c, h, agent, kind, k);
    if k < n {
      FirstCrossingRow(c, g, agent, kind, k);
    } else {
      NoCrossingNoRow(c, g, agent, kind);
    }
  }

  lemma {:induction false} NoCrossingNoRow(c: Config, h: seq<Commit>, agent: AgentId, kind: Kind)
    requires forall j: nat :: !CrossesAt(c, h, agent, kind, j)
    ensures Key(agent, kind) !in Fold(c, h).incidents
  {
    if h != [] {
      var n := |h| - 1;
      var g := h[..n];
      assert forall j: nat :: CrossesAt(c, g, agent, kind, j) ==> CrossesAt(c, h, agent, kind, j);
      NoCrossingNoRow(c, g, agent, kind);
      ApplyIncidents(c, Fold(c, g), h[n].batch, agent, kind);
      assert !CrossesAt(c, h, agent, kind, n);
    }
  }

  lemma {:induction false} SomeFirstCrossing(c: Config, h: seq<Commit>, agent: AgentId, kind: Kind, j: nat)
    returns (k: nat)
    requires CrossesAt(c, h, agent, kind, j)
    ensures IsFirstCrossing(c, h, agent, kind, k)
  {
    if i: nat :| i < j && CrossesAt(c, h, agent, kind, i) {
      k := SomeFirstCrossing(c, h, agent, kind, i);
    } else {
      k := j;
    }
  }

  /**
   An (agent, kind) pair has an incident exactly when some commit's latest sample met the
   threshold, and the row's evidence is the first such commit's.
   */
  lemma IncidentExact(c: Config, h: seq<Commit>, agent: AgentId, kind: Kind)
    ensures Key(agent, kind) in Fold(c, h).incidents <==> exists j: nat :: CrossesAt(c, h, agent, kind, j)
    ensures Key(agent, kind) in Fold(c, h).incidents ==>
              exists k: nat :: IsFirstCrossing(c, h, agent, kind, k) &&
                               Fold(c, h).incidents[Key(agent, kind)] == IncidentOf(c, h[k].batch, kind)
  {
    if j: nat :| CrossesAt(c, h, agent, kind, j) {
      var k := SomeFirstCrossing(c, h, agent, kind, j);
      FirstCrossingRow(c, h, agent, kind, k);
    } else {
      NoCrossingNoRow(c, h, agent, kind);
    }
  }

  // ---------- incidents by the samples ----------

  /** The latest sample of commit `j`, a commit of this agent, is at `k`. */
  ghost predicate LatestOf(h: seq<Commit>, agent: AgentId, j: nat, k: nat) {
    j < |h| && h[j].batch.agentId == agent && IsLatest(h[j].batch.samples, k)
  }

  ghost predicate CpuAt(c: Config, h: seq<Commit>, agent: AgentId, j: nat, k: nat) {
    LatestOf(h, agent, j, k) && h[j].batch.samples[k].cpu >= c.cpuThreshold
  }

  ghost predicate MemoryAt(c: Config, h: seq<Commit>, agent: AgentId, j: nat, k: nat) {
    LatestOf(h, agent, j, k) && h[j].batch.samples[k].memory >= c.memoryThreshold
  }

  lemma CpuCrosses(c: Config, h: seq<Commit>, agent: AgentId, j: nat, k: nat)
    requires CpuAt(c, h, agent, j, k)
    ensures CrossesAt(c, h, agent, HighCpu, j)
    ensures IncidentOf(c, h[j].batch, HighCpu)
         == Incident(agent, HighCpu, h[j].batch.batchId, h[j].batch.samples[k].cpu, c.cpuThreshold)
  {
    CrossingOfLatest(c, h[j].batch, k);
  }

  lemma SomeCpu(c: Config, h: seq<Commit>, agent: AgentId, j: nat) returns (k: nat)
    requires CrossesAt(c, h, agent, HighCpu, j)
    ensures CpuAt(c, h, agent, j, k)
  {
    k := LatestIndex(h[j].batch.samples);
    SomeLatest(h[j].batch);
    CrossingOfLatest(c, h[j].batch, k);
  }

  /** The first commit of this agent whose latest sample, at `k`, meets the threshold. */
  ghost predicate FirstCpu(c: Config, h: seq<Commit>, agent: AgentId, j: nat, k: nat) {
    CpuAt(c, h, agent, j, k) && forall i: nat, l: nat :: i < j ==> !CpuAt(c, h, agent, i, l)
  }

  lemma FirstCpuCrossing(c: Config, h: seq<Commit>, agent: AgentId, j: nat) returns (k: nat)
    requires IsFirstCrossing(c, h, agent, HighCpu, j)
    ensures FirstCpu(c, h, agent, j, k)
  {
    k := SomeCpu(c, h, agent, j);
    forall i: nat, l: nat | i < j ensures !CpuAt(c, h, agent, i, l) {
      if CpuAt(c, h, agent, i, l) {
        CpuCrosses(c, h, agent, i, l);
      }
    }
  }

  lemma CpuIncidentExact(c: Config, h: seq<Commit>, agent: AgentId)
    ensures agent + ":high_cpu" in Fold(c, h).incidents <==> exists j: nat, k: nat :: CpuAt(c, h, agent, j, k)
    ensures agent + ":high_cpu" in Fold(c, h).incidents ==>
              exists j: nat, k: nat ::
                && FirstCpu(c, h, agent, j, k)
                && Fold(c, h).incidents[agent + ":high_cpu"]
                   == Incident(agent, HighCpu, h[j].batch.batchId, h[j].batch.samples[k].cpu, c.cpuThreshold)
  {
    KeyText(agent);
    IncidentExact(c, h, agent, HighCpu);
    if j: nat, k: nat :| CpuAt(c, h, agent, j, k) {
      CpuCrosses(c, h, agent, j, k);
    }
    if Key(agent, HighCpu) in Fold(c, h).incidents {
      var j: nat :| IsFirstCrossing(c, h, agent, HighCpu, j) &&
                    Fold(c, h).incidents[Key(agent, HighCpu)] == IncidentOf(c, h[j].batch, HighCpu);
      var k := FirstCpuCrossing(c, h, agent, j);
      CpuCrosses(c, h, agent, j, k);
    }
  }

  lemma MemoryCrosses(c: Config, h: seq<Commit>, agent: AgentId, j: nat, k: nat)
    requires MemoryAt(c, h, agent, j, k)
    ensures CrossesAt(c, h, agent, HighMemory, j)
    ensures IncidentOf(c, h[j].batch, HighMemory)
         == Incident(agent, HighMemory, h[j].batch.batchId, h[j].batch.samples[k].memory, c.memoryThreshold)
  {
    CrossingOfLatest(c, h[j].batch, k);
  }

  lemma SomeMemory(c: Config, h: seq<Commit>, agent: AgentId, j: nat) returns (k: nat)
    requires CrossesAt(c, h, agent, HighMemory, j)
    ensures MemoryAt(c, h, agent, j, k)
  {
    k := LatestIndex(h[j].batch.samples);
    SomeLatest(h[j].batch);
    CrossingOfLatest(c, h[j].batch, k);
  }

  /** The first commit of this agent whose latest sample, at `k`, meets the threshold. */
  ghost predicate FirstMemory(c: Config, h: seq<Commit>, agent: AgentId, j: nat, k: nat) {
    MemoryAt(c, h, agent, j, k) && forall i: nat, l: nat :: i < j ==> !MemoryAt(c, h, agent, i, l)
  }

  lemma FirstMemoryCrossing(c: Config, h: seq<Commit>, agent: AgentId, j: nat) returns (k: nat)
    requires IsFirstCrossing(c, h, agent, HighMemory, j)
    ensures FirstMemory(c, h, agent, j, k)
  {
    k := SomeMemory(c, h, agent, j);
    forall i: nat, l: nat | i < j ensures !MemoryAt(c, h, agent, i, l) {
      if MemoryAt(c, h, agent, i, l) {
        MemoryCrosses(c, h, agent, i, l);
      }
    }
  }

  lemma MemoryIncidentExact(c: Config, h: seq<Commit>, agent: AgentId)
    ensures agent + ":high_memory" in Fold(c, h).incidents <==> exists j: nat, k: nat :: MemoryAt(c, h, agent, j, k)
    ensures agent + ":high_memory" in Fold(c, h).incidents ==>
              exists j: nat, k: nat ::
                && FirstMemory(c, h, agent, j, k)
                && Fold(c, h).incidents[agent + ":high_memory"]
                   == Incident(agent, HighMemory, h[j].batch.batchId, h[j].batch.samples[k].memory, c.memoryThreshold)
  {
    KeyText(agent);
    IncidentExact(c, h, agent, HighMemory);
    if j: nat, k: nat :| MemoryAt(c, h, agent, j, k) {
      MemoryCrosses(c, h, agent, j, k);
    }
    if Key(agent, HighMemory) in Fold(c, h).incidents {
      var j: nat :| IsFirstCrossing(c, h, agent, HighMemory, j) &&
                    Fold(c, h).incidents[Key(agent, HighMemory)] == IncidentOf(c, h[j].batch, HighMemory);
      var k := FirstMemoryCrossing(c, h, agent, j);
      MemoryCrosses(c, h, agent, j, k);
    }
  }

  /** Every incident row sits under the key of its own agent and kind: one row per pair. */
  lemma {:induction false} IncidentKeys(c: Config, h: seq<Commit>, key: string)
    requires key in Fold(c, h).incidents
    ensures key == Key(Fold(c, h).incidents[key].agentId, Fold(c, h).incidents[key].kind)
    ensures exists i :: 0 <= i < |h| && h[i].batch.agentId == Fold(c, h).incidents[key].agentId
  {
    var n := |h| - 1;
    var g := h[..n];
    var v := Fold(c, g);
    if key in v.incidents {
      IncidentKeys(c, g, key);
      var i :| 0 <= i < |g| && g[i].batch.agentId == v.incidents[key].agentId;
      assert h[i] == g[i];
    } else {
      assert h[n].batch.agentId == Fold(c, h).incidents[key].agentId;
    }
  }
}
