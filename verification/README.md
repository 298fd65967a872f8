# FleetPulse: verified model of the telemetry pipeline

FleetPulse carries host telemetry from agents to a fleet view. An agent samples a host, packs the
samples into batches, keeps them in a bounded SQLite spool and posts them to an API. The API stores
a batch and an outbox event in one transaction. Relays copy outbox events onto a Redis stream, and
workers of one consumer group apply each event to the fleet and incident tables, drop the cached
fleet list, and acknowledge the message. Everything between the API and the tables is at-least-once:
relays may add an event twice, messages are reclaimed while a slow worker still holds them, and any
process may die between any two statements. What the design promises on top of that is
exactly-once effects, and that is what the main part of this project proves, over every run.

The project is plain Dafny and needs nothing else: `dafny verify dfyconfig.toml`.

## How it is organised

- `Telemetry`, `Queueing`, `Fleet`: batches and samples, the message format, and the sequential
  meaning of applying a batch (`ApplyBatch`, `Fold`).
- `Pipeline`: the state machine. One step per statement that touches PostgreSQL or Redis, for any
  number of API requests, relays, workers and cache readers; transactions commit or abort as a unit;
  crashes and foreign stream messages are steps of their own.
- `PipelineInvariant` with `IngestInvariant`, `PublishInvariant`, `ConsumeInvariant`,
  `CacheInvariant`: the inductive invariant, in four layers, and the proof that every step keeps it.
- `PipelineTheorems`, `CacheTheorems`, `BatchCounts`, `Durability`, `CarefulRuns`, `OrderlyRuns`: what
  follows for every reachable state and every run.
- `Operations`, `Deployment`, `Recovery`: the same operations as programs that change a state
  object; each is proved to be a run of the state machine and to compute its whole-call meaning.
  `Recovery` drains the pipeline from any state a crash can leave; `Scenarios` holds the runs that
  show where an expected property fails.
- `Spool`, `Backoff`, `Ledgers`: the agent's spool, its back-off, and what becomes of every batch.
- `Packing`, `Requests`, `Agent`: the agent's loop run against the pipeline, with everybody else acting
  in between; `AgentScenarios` holds a run that ends itself.
- `Redaction`, `Registry`, `Assistant`: the assistant's redaction, fail-closed analysis and proposal
  registry.
- `Percentile`: the drill statistics' percentile. `Wrappers`, `Decimals`: shared helpers.

## Findings

- `fleet_state` is the row of the agent's last *committed* event, not of its newest observation:
  the upsert has no guard on `observed_at` (`Fleet.FleetExact`). `Scenarios.OlderRowAtRest` is a run
  that ends at rest with an older row. `Fleet.NewestIff` is the exact condition: the row is newest
  after every commit if and only if the agent's commits come in observation order, which is if and
  only if every upsert would have passed that guard.
- The cache can be stale with nothing left to do. `Scenarios.StaleAtRest` constructs such a run for
  any batch; `CacheTheorems.SettledCacheCoherent` gives the exact condition, and
  `CacheTheorems.InvalidationNeverForgotten` the guarantee for runs without the race.
- A stream message of the accepted type that names no stored batch raises an exception outside the
  caught set. It kills every worker that handles it and is never acknowledged or dead-lettered
  (`PipelineTheorems.MissingBatchNeverSettles`; `Recovery.OrphanNeverDrains` is a concrete one). The
  exact condition: with no new batches and no new foreign messages, the pipeline can be drained if
  (`Recovery.Recover`) and only if (`Recovery.OnlyCurableDrains`) the event of every such message is
  also carried by a message that names a stored batch.
- `full_jitter_delay` raises `OverflowError` from attempt 1024 on, inside the agent's exception
  handler, so it ends the agent process. `Backoff.DelayBounds`, `Agent.AgentProcess.SendOnce`
  and `Agent.AgentProcess.Run` state this as an if-and-only-if, and
  `AgentScenarios.SilenceEndsAgent` is a run of 1025 unanswered rounds that ends so.
- Exactly-once holds per event. A foreign message of the accepted type that names a stored batch under
  an event id of its own applies the batch again; `BatchCounts.BatchCommits` gives the exact count.
- If the clock goes back, the batch just spooled can be the one evicted
  (`Spool.BackdatedBatchIsDropped`); `Spool.SurvivesIff` says exactly which rows survive.
- A dead letter's attempts can exceed `max_delivery_attempts` without any crash, when messages are
  reclaimed while a worker still holds them (`Scenarios.OvercountedRetry`). Where that does not happen
  the count is exact (`OrderlyRuns.ExactRetry`); the retry bound itself holds either way
  (`CarefulRuns.BoundedRetry`).
- At-most-once review rests on fresh analysis ids. Registering under a used id clears its decisions
  (`Registry.ReusedIdForgetsDecision`), and that is the only way to a second receipt
  (`Registry.SecondReceiptNeedsRegistration`). A negative registry limit makes registration raise.
- docs/architecture/system.md says the spool is bounded by age and size. The code bounds it by
  number of batches and bytes, and the model follows the code.

## Model

| member | source | states |
|---|---|---|
| PipelineTheorems.RunInvariant | src/fleetpulse/worker/main.py:47-203 | The four-layer invariant holds after every run from the empty system, for any interleaving of API, relay, worker and reader steps with crashes anywhere |
| PipelineTheorems.ExactlyOnce | src/fleetpulse/worker/main.py:47-183 | In every reachable state with nothing unpublished, undelivered or pending, each stored batch has exactly one outbox event and that event was applied exactly once, to the stored document |
| PipelineTheorems.AtMostOnce | src/fleetpulse/worker/main.py:51-65 | At any time, the number of commits of an event is one if it is in `processed_events` and zero otherwise |
| PipelineTheorems.Refinement | src/fleetpulse/worker/main.py:51-126 | Fleet and incident tables equal the sequential fold over the commit history; the history has no repeated event and covers exactly `processed_events` |
| PipelineTheorems.Incidents | src/fleetpulse/worker/main.py:99-126 | The stored incidents are exactly the (agent, type) pairs some committed batch's latest sample crossed, with evidence from the first crossing in commit order |
| PipelineTheorems.CpuIncidents | src/fleetpulse/worker/main.py:76-126 | In every reachable state `agent:high_cpu` is an incident if and only if some committed batch of the agent has a latest sample (greatest time, first of equals) whose cpu is at least the cpu threshold; its evidence is the first such batch's id and cpu, and that threshold |
| PipelineTheorems.MemoryIncidents | src/fleetpulse/worker/main.py:76-126 | The same for `agent:high_memory`, the sample's memory and the memory threshold |
| PipelineTheorems.FleetRows | src/fleetpulse/worker/main.py:76-97 | A fleet row holds batch id, time, cpu and memory of the latest sample of the agent's last committed batch, and a disk reading of that sample no smaller than any other |
| PipelineTheorems.NoLoss | src/fleetpulse/worker/main.py:149-183 | Every outbox event is unpublished or on the stream; every message is undelivered, pending or acknowledged, exclusively; every acknowledged one is processed, or has both a dead-letter row and a dead-letter stream entry |
| PipelineTheorems.StreamCopies | src/fleetpulse/worker/relay.py:30-52 | Copies of an event on the stream equal `publication_attempts` plus aborted additions plus the one in an open transaction; attempts is 1 exactly when published; no row is locked by two relays |
| PipelineTheorems.DeadLetters | src/fleetpulse/worker/main.py:134-169 | A dead letter is a foreign, undecodable or unsupported message with its own error and fields, under its `event_id` or "unknown" exactly when it has none; never one recorded in `processed_events`; and delivered at least the configured number of times |
| PipelineTheorems.MissingBatchNeverSettles | src/fleetpulse/worker/main.py:68-74 | A message of the accepted type naming no stored batch is never acknowledged nor dead-lettered, so the pipeline never comes to rest |
| PipelineTheorems.FleetMatchesBatches | src/fleetpulse/worker/main.py:76-98 | A fleet row's `last_batch_id` is a stored batch of the same agent whose `observed_end` is the row's `observed_at` |
| PipelineTheorems.AgentsExist | src/fleetpulse/api/routes.py:98-123 | Every batch and every incident refers to an existing agent, and every incident sits under its own pair's key |
| PipelineTheorems.AcceptedOnce | src/fleetpulse/api/routes.py:111-146 | However often a batch is posted, concurrently or not, it is stored once and answered "accepted" once |
| IngestInvariant.IngestedStep | src/fleetpulse/api/routes.py:97-139 | Every step keeps: one valid row per batch id, exactly one outbox event per stored batch, no two open transactions inserting one batch id |
| PublishInvariant.PublishedStep | src/fleetpulse/worker/relay.py:30-52 | Every step keeps: relays hold disjoint unpublished rows, every relay message encodes its outbox row, copies are conserved |
| ConsumeInvariant.ConsumedStep | src/fleetpulse/worker/main.py:47-203 | Every step keeps: the consumer group partitions delivered messages, open worker transactions describe the tables they will commit to, tables equal the folded history |
| ConsumeInvariant.StagedIsApply | src/fleetpulse/worker/main.py:78-126 | The rows staged statement by statement are together one sequential `ApplyBatch` |
| CacheInvariant.CachedStep | src/fleetpulse/api/routes.py:178-215 | Every step keeps: snapshots and the cached value are the fold of a history prefix, and commits since the SET still have an unacknowledged message |
| CacheTheorems.CacheIsPastTable | src/fleetpulse/api/routes.py:181-211 | A cached list is always the fleet table as it was after some prefix of the commits |
| CacheTheorems.StaleExplained | src/fleetpulse/api/routes.py:181-211 | A stale cache means a reader's race or a committed message still unacknowledged |
| CacheTheorems.InvalidationNeverForgotten | src/fleetpulse/worker/main.py:181-183 | In runs with no commit between a reader's SELECT and SET, a stale cache implies a committed event whose message is unacknowledged, even after crashes |
| CacheTheorems.SettledCacheCoherent | src/fleetpulse/api/routes.py:181-211 | With nothing pending, the cache agrees with the table if and only if the table did not change between the SELECT and the SET that filled it |
| CarefulRuns.BoundedRetry | src/fleetpulse/worker/main.py:188-199 | In every run in which no worker dies with it in hand, whatever else crashes and however claims overlap, a poison message no worker holds is pending and not dead-lettered as long as it was delivered fewer times than the limit, and acknowledged and dead-lettered from then on |
| CarefulRuns.AtLimitInvariant | src/fleetpulse/worker/main.py:220-240 | In every such run a poison message pending at or past the limit is in some worker's hands |
| OrderlyRuns.ExactRetry | src/fleetpulse/worker/main.py:188-199 | Without overlapping claims no poison message is delivered past the limit, and its dead letter records exactly the limit |
| Scenarios.OvercountedRetry | src/fleetpulse/worker/main.py:134-138 | A crash-free run, for every configuration, whose dead letter records one delivery more than the limit |
| OrderlyRuns.OrderlyInvariant | src/fleetpulse/worker/main.py:220-240 | In crash-free runs without overlapping claims each fetched message has one holder, is pending while held, and is never delivered more often than the limit if it is poison |
| Durability.NothingUndone | src/fleetpulse/worker/main.py:47-203 | Over any run from a reachable state, stored batches, processed events and dead letters keep their rows, agents keep the time they were first seen, logs only grow at the end, acknowledgements are final |
| Durability.StoredRows | src/fleetpulse/api/routes.py:113-121 | Every stored batch row has its document's agent, its number of samples, and the least and the greatest of its times |
| Durability.RequestRecorded | src/fleetpulse/api/routes.py:111-139 | Committing a request, new or repeated, stores the batch that was sent and touches no other, if and only if no other batch was stored under that id |
| Durability.StoredReachesFleet | src/fleetpulse/worker/main.py:47-183 | Wherever the pipeline comes to rest later, a stored batch's own event has been applied exactly once, and the batch for nothing else but foreign events that name it |
| BatchCounts.BatchCommits | src/fleetpulse/worker/main.py:51-75 | At any time the commits of a batch are its own event's, at most one, plus one for each processed foreign event that names it |
| BatchCounts.BatchCommitsAtRest | src/fleetpulse/worker/main.py:51-75 | At rest a stored batch has been applied one time more than there are processed foreign events that name it |
| Requests.Play | src/fleetpulse/api/routes.py:97-139 | Whatever steps everybody takes meanwhile, nothing under the agent's ids is forged, and a request that commits leaves its batch stored |
| Requests.CommitsExactly | src/fleetpulse/api/routes.py:97-139 | A request commits if and only if one of the steps played is its own process's commit, while it serves that batch |
| Agent.AgentToFleet | src/fleetpulse/agent/main.py:43-115 | Wherever the pipeline comes to rest later, every batch an agent ever spooled is in its spool, was dropped in a logged pass in which the rows no older than it broke a bound, or is applied exactly once for its own event; and every one that reached the API is applied |
| Telemetry.LatestIndex | src/fleetpulse/worker/main.py:76-76 | The first of the samples with the greatest time |
| Telemetry.LatestIsObservedEnd | src/fleetpulse/api/routes.py:117-118 | The worker's latest sample has the API's `observed_end` as its time |
| Queueing.DecodeInvertsEncode | src/fleetpulse/worker/main.py:36-44 | Decoding gives back exactly the event the relay encoded |
| Queueing.DecodesExactly | src/fleetpulse/worker/main.py:36-44 | A message decodes to an event if and only if the four keys are there and hold its UUID, type, aggregate id and payload |
| Queueing.DecodeErrors | src/fleetpulse/worker/main.py:36-44 | KeyError if and only if a key is missing, JSONDecodeError if and only if all are there and the payload is no JSON, ValidationError if and only if it is, but some field has the wrong type |
| Queueing.PoisonExactly | src/fleetpulse/worker/main.py:66-67 | A message can be applied if and only if it decodes and its type is `telemetry.batch.accepted.v1`; any other type is a ValueError |
| Fleet.KeyInjective | src/fleetpulse/worker/main.py:111-111 | The `agent:type` key determines agent and type, for every valid agent id |
| Fleet.ApplyBatchExact | src/fleetpulse/worker/main.py:76-126 | Applying a batch, in terms of its latest sample: the agent's row takes that sample's readings and fullest disk, each kind's incident opens exactly if its reading meets its threshold and none is open, and nothing else changes |
| Fleet.FleetExact | src/fleetpulse/worker/main.py:78-98 | A fleet row exists exactly for agents with a commit, and is the row of the last one in commit order |
| Fleet.NewestIff | src/fleetpulse/worker/main.py:88-97 | The row is the agent's newest observation after every prefix of the commits, if and only if the agent's commits come in observation order, if and only if each met the guard the upsert lacks |
| Scenarios.OlderRowAtRest | src/fleetpulse/worker/main.py:88-97 | A run for any two batches of an agent that ends at rest with the older one as the row |
| Fleet.IncidentExact | src/fleetpulse/worker/main.py:99-126 | Over any history, a pair has an incident exactly if some commit crossed, with the first crossing's evidence |
| Fleet.IncidentKeys | src/fleetpulse/api/models.py:118-120 | One row per pair: each incident is stored under its own agent and type |
| Operations.PublishExact | src/fleetpulse/worker/relay.py:40-52 | The messages added decode to the rows' events in the rows' order; the rows get the time and one more attempt, and keep everything else; other rows are unchanged |
| Deployment.FirstPage | src/fleetpulse/worker/relay.py:31-39 | The first 100 available rows by creation time: distinct, sorted, and none left out is older |
| Deployment.Deployment.IngestBatch | src/fleetpulse/api/routes.py:92-146 | One request is a run of the state machine. The agent's row has the batch's host name and is last seen now, first seen when it first was; a new batch gets its row (document, agent, sample count, first and last time) and an unpublished outbox event naming it; a known one changes neither; no other row changes |
| Deployment.Deployment.PublishOnce | src/fleetpulse/worker/relay.py:26-55 | One call is a run that appends the first page's messages in creation order and marks exactly those rows published |
| Deployment.PageIsPublished | src/fleetpulse/worker/relay.py:31-52 | Publishing a page leaves exactly the unpublished rows minus the page |
| Deployment.Deployment.PollRelay | src/fleetpulse/worker/relay.py:58-79 | Drain bound: k failure-free polls from n unpublished rows leave max(0, n − 100k) |
| Deployment.Deployment.ListFleetState | src/fleetpulse/api/routes.py:178-215 | The answer is the table after some prefix of the commits; a hit changes nothing, a miss caches the current rows; each of the four headers exactly in its case, Redis errors included |
| Deployment.Deployment.ProcessEvent | src/fleetpulse/worker/main.py:47-131 | The transaction's statements together record the event with its message and consumer and apply the named batch, in terms of its latest sample, once; with no such batch the worker ends and nothing is kept |
| Deployment.Deployment.DeadLetter | src/fleetpulse/worker/main.py:141-169 | Stream entry, row unless there is one, then acknowledgement |
| Deployment.Deployment.HandleFailure | src/fleetpulse/worker/main.py:188-199 | Below the limit nothing changes but the worker; at it the message is dead-lettered |
| Deployment.Deployment.HandleMessage | src/fleetpulse/worker/main.py:172-203 | The whole call is a run, and its end state is the one of the message's outcome: applied, duplicate, retried, dead-lettered or crashed |
| Recovery.RelayMessageIsNoPill | src/fleetpulse/worker/relay.py:41-49 | A relay's message never ends a worker |
| Recovery.Settle | src/fleetpulse/worker/main.py:220-229 | Claiming and handling a pending message that does not end the worker settles it within the delivery limit, and touches no other pending message |
| Recovery.DrainStream | src/fleetpulse/worker/main.py:220-240 | One worker, restarted when a message ends it, reads the stream to its end and empties the pending list |
| Recovery.Recover | src/fleetpulse/worker/main.py:206-240 | From every reachable state in which every such message has a carrier with a stored batch, the program can reach rest with the same batches, each applied exactly once |
| Recovery.OnlyCurableDrains | src/fleetpulse/worker/main.py:172-203 | Conversely, a reachable state that can reach rest with the same batches and foreign messages meets that condition |
| Recovery.OrphanNeverDrains | src/fleetpulse/worker/main.py:68-74 | One accepted event for a batch nobody sent keeps the pipeline from ever coming to rest while no batch arrives |
| Scenarios.StaleAtRest | src/fleetpulse/api/routes.py:181-211 | A run for any batch that ends at rest with a stale cache |
| Spool.BatchSpool.Enqueue | src/fleetpulse/agent/spool.py:46-69 | The loop ends with both bounds met, evicts oldest first, stops as soon as the bounds hold; rows kept plus rows dropped are the rows there were plus the new one |
| Spool.SurvivesIff | src/fleetpulse/agent/spool.py:57-68 | A row whose time no other shares survives if and only if the rows no older than it meet both bounds |
| Spool.NewestSurvivesIff | src/fleetpulse/agent/spool.py:57-68 | A strictly newest batch survives if and only if it fits by itself |
| Spool.EvictedDoesNotFit | src/fleetpulse/agent/spool.py:58-68 | For every evicted row, the rows no older than it break a bound: nothing is evicted needlessly |
| Spool.BackdatedBatchIsDropped | src/fleetpulse/agent/spool.py:46-69 | For any bounds and any rows that fit, a batch stamped earlier than all of them that does not fit with them is the one dropped, and nothing else |
| Spool.BatchSpool.NextReady | src/fleetpulse/agent/spool.py:71-83 | The oldest row whose delay has elapsed, or nothing exactly when there is none |
| Spool.NextReadyExists | src/fleetpulse/agent/spool.py:71-83 | A row in back-off never blocks a ready one |
| Spool.BatchSpool.MarkSent | src/fleetpulse/agent/spool.py:85-87 | Afterwards no row has that id; if one had it, exactly that row was taken out and the order kept, otherwise nothing changed |
| Spool.BatchSpool.MarkFailed | src/fleetpulse/agent/spool.py:89-98 | The row with that id has one more attempt, the truncated error and its next time, with batch, size and age as before; every other row is unchanged |
| Backoff.CeilingDoubles | src/fleetpulse/agent/client.py:13-21 | The ceiling is the base at attempt 0 and doubles with every attempt, up to the cap |
| Backoff.CeilingMonotone | src/fleetpulse/agent/client.py:13-21 | The ceiling never decreases with the attempts and never exceeds the cap |
| Backoff.DelayExact | src/fleetpulse/agent/client.py:13-21 | The delay is the draw between zero and the ceiling for attempts up to 1023, negative ones counting as 0, and an overflow error beyond |
| Backoff.DelayBounds | src/fleetpulse/agent/client.py:13-21 | A delay is drawn exactly up to attempt 1023, and lies between zero and the cap |
| Agent.DueWithinCap | src/fleetpulse/agent/main.py:81-91 | After any failures a row is due again within the cap of its last failure |
| Ledgers.SpoolLedger | src/fleetpulse/agent/spool.py:46-69 | Spooling keeps the ledger: every batch is in the spool, dropped or answered exactly once, with the size and time it was spooled with; there is one pass of the eviction loop per batch spooled, each from exactly the rows left then, and each evicted only because a bound was broken; nothing is dropped while all ever spooled fits |
| Ledgers.DroppedByABound | src/fleetpulse/agent/spool.py:57-68 | For every dropped batch the log has the pass, over rows with their true sizes and times, in which the rows no older than it broke a bound |
| Ledgers.SentLedger | src/fleetpulse/agent/main.py:70-71 | Forgetting an answered batch keeps the ledger |
| Ledgers.CountsAddUp | src/fleetpulse/agent/spool.py:46-108 | Batches spooled are batches waiting plus dropped plus answered |
| Packing.PackedSamples | src/fleetpulse/agent/main.py:43-55 | The batches' samples followed by the buffer are the samples taken, in order |
| Packing.PackedGroups | src/fleetpulse/agent/main.py:46-54 | The j-th batch is the j-th group of exactly `batch_size` samples, with the id, size and time of the round that completed it |
| Agent.AgentProcess.CollectOnce | src/fleetpulse/agent/main.py:46-64 | A sample is buffered with the spool untouched, or completes a batch of exactly the buffered samples, and the spool is then the old rows with it, less what eviction took |
| Agent.AgentProcess.SendOnce | src/fleetpulse/agent/main.py:66-102 | The oldest due row is posted and removed exactly if its request committed and the answer came back, else rescheduled at the failure plus the draw for its attempts; the process ends exactly on a failure past the float range |
| Agent.AgentProcess.Run | src/fleetpulse/agent/main.py:43-115 | Run against the pipeline from start to flush, whatever everybody else does in between: the process is a trace of rounds, each pinned to what it collects, evicts, posts and reschedules, cut short exactly by an overflow; what it spools is the samples in full groups, then the rest; each batch is in the spool, dropped or answered, with its size and time, and the counts add up; at rest each is in the spool, dropped by a bound, or applied |
| AgentScenarios.SilenceEndsAgent | src/fleetpulse/agent/main.py:81-91 | For any settings and random draws, an agent with one spooled batch and no answers ends itself in round 1025 |
| Redaction.RedactKeepsShape | src/fleetpulse/assistant/service.py:138-158 | Same tree, keys and non-string values |
| Redaction.RedactLeaves | src/fleetpulse/assistant/service.py:138-158 | The redacted document's string leaves are the original's, each redacted, in order |
| Redaction.RedactValue | src/fleetpulse/assistant/service.py:138-158 | The recursive loop computes that document, with a count that is the sum over the string leaves |
| Assistant.PrepareEvidence | src/fleetpulse/assistant/service.py:116-132 | Item i has the redacted source, the redacted content, the input's time and the id "E" followed by the numeral of i + 1; the count is the substitutions in all sources and contents |
| Decimals.DecimalIsNumeral | src/fleetpulse/assistant/service.py:126-126 | The numeral is of digits without a leading zero and stands for the number |
| Assistant.EvidenceIdsDistinct | src/fleetpulse/assistant/service.py:124-131 | Evidence ids are pairwise distinct |
| Assistant.ValidateInvertsDump | src/fleetpulse/assistant/models.py:41-63 | Validating a dumped output gives it back exactly when it meets the schema |
| Assistant.SafeOutput | src/fleetpulse/assistant/service.py:134-136 | Dump, redact, validate is redaction field by field, or a failure exactly when that breaks a length bound |
| Assistant.CitationErrorExact | src/fleetpulse/assistant/service.py:160-176 | No error exactly when the output abstains with nothing else, or claims something and cites only known evidence |
| Assistant.CitationReasons | src/fleetpulse/assistant/service.py:160-176 | Each reason exactly in its case; the unknown citations are exactly those some claim or remediation makes and no evidence id equals |
| Assistant.AnalysisAnswers | src/fleetpulse/assistant/service.py:42-94 | The response field by field in each of five cases: id, evidence, summary, claims, proposals in the remediations' order, reason, and which substitutions the count includes |
| Assistant.AnalysisFailsClosed | src/fleetpulse/assistant/service.py:42-94 | For any provider output or exception the response abstains with no claims and proposals, or has claims and every citation resolves |
| Assistant.AcceptedExactly | src/fleetpulse/assistant/service.py:57-94 | A provider output is passed on, redacted, exactly when there is evidence, the redacted output is valid and its citations check out |
| Assistant.AssistantService.Analyze | src/fleetpulse/assistant/service.py:42-94 | The provider is asked the redacted question with the evidence redacted item by item; the program gives that response, and registers proposals exactly for passed outputs |
| Registry.ProposalRegistry.Register | src/fleetpulse/assistant/service.py:178-183 | The eviction loop leaves the most recent entries up to the limit |
| Registry.ProposalRegistry.Review | src/fleetpulse/assistant/service.py:96-114 | A receipt if and only if the key is there undecided, unknown if and only if it is not there, duplicate if and only if it is decided; a receipt changes that entry alone, an error nothing |
| Registry.RegistryOverRuns | src/fleetpulse/assistant/service.py:96-114 | After any interleaving with fresh ids the keys are the last registered ones in order, and no key ever got two receipts, even across eviction |
| Registry.ReusedIdForgetsDecision | src/fleetpulse/assistant/service.py:178-183 | A reused analysis id makes each of its surviving proposals decidable again |
| Registry.SecondReceiptNeedsRegistration | src/fleetpulse/assistant/service.py:96-114 | Over any run, fresh ids or not, a key gets a second receipt only if it was registered again after the first |
| Percentile.PercentileExact | src/fleetpulse_project/reliability.py:8-16 | The result is v if and only if the list and percentile are admissible and v is the least value that at least p percent of the values do not exceed |
| Percentile.RankInRange | src/fleetpulse_project/reliability.py:15-16 | The rank lies in 1..n |
| Percentile.OrderIndependent | src/fleetpulse_project/reliability.py:14-16 | The order of the values does not matter, errors included |
| Percentile.PercentileMonotone | src/fleetpulse_project/reliability.py:8-16 | A higher percentile never gives a smaller value |

## Left out

- PipelineTheorems.MissingBatchNeverSettles: stated for an event id no other message carries; with
  another carrier that names a stored batch, the event can be committed and the message acknowledged
  as a duplicate.
- Recovery.Recover: shows that the program can always come to rest, by one schedule; fairness of the
  scheduler, and so that every fair run does, is not modelled.
- Percentile.PercentileExact: over real numbers; the float product can round across an integer, and
  then the code picks the neighbouring rank.
- Spool.BatchSpool.Enqueue: bounds are natural numbers; with a negative one the source's loop never
  ends.
- Redis data loss: the stream, pending list and dead-letter stream are durable here.
- SQL and driver internals: only commit and abort, uniqueness, ON CONFLICT, row locks and SKIP
  LOCKED. Database errors, such as an over-long or unstorable text, are crash steps.
- Text syntax of UUIDs, JSON and timestamps: a field either carries such a value or it does not.
- XREADGROUP and XAUTOCLAIM batches: a worker takes messages one step at a time, and any pending
  message may be claimed at any time; this allows more interleavings than the code has.
- Page choice under concurrency: a relay may lock any unlocked unpublished rows in creation order,
  which covers every outcome of SKIP LOCKED; the exact page is in Deployment.FirstPage.
- The Deployment methods are one process's view, with no other process interleaved; interleavings
  are the subject of the state machine.
- Foreign messages may not carry an outbox event's id: ids are random UUIDs the API draws itself.
- `published_at` is one time for a relay transaction; the code takes the time row by row.
- Agent.AgentProcess.Run: batch ids drawn by `uuid4` are taken to be new, and nobody else posts under
  them; Durability.RequestRecorded says what happens to one that is not new.
- An agent process killed outright loses its buffer of unspooled samples; Agent.AgentProcess.Run covers
  a stop and the overflow error, which both flush it.
- One configuration for all workers (thresholds and delivery limit).
- Order of the fleet list (by agent id) and cache hit statistics.
- Telemetry fields that no modelled code reads (load, network, processes).
- Redaction patterns: which substitutions are made in a string is a parameter; no secrecy claim.
- The agent's sampling, HTTP transport and clock, the assistant's provider, and random draws: inputs.
- Agent settings outside the batch schema (host name or agent id the schema would reject).
- Routes for deployments, agents, incidents and cache statistics; metrics, logs, correlation ids and
  authentication: plumbing that would add only easy members.
