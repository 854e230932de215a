# kafka-reliability: a verified model

This project models the three protocols of the `kafka_reliability` library in Dafny and
proves what the library promises about them: *at-least-once delivery with effectively-once
processing*. `dafny verify dfyconfig.toml` checks all of it.

**Outbox relay.** `Outbox.dfy` is the table and the relay's SQL statements, each one atomic
step. `RelayCode.dfy` is the relay and its store as classes on one connection that may
break at any call; a statement whose reply is lost may or may not have been executed.
`RelayProtocol.dfy` is a step relation for any number of writers and relays over one table:
sessions are dropped between any two steps, sends fail and may still arrive, marks and
failure records are lost, processes crash, and a relay without a session goes on sending
what it has claimed. `RelaySafety.dfy` is the invariant of all these steps,
`RelayGuarantees.dfy` what follows for whole runs, `RelayPass.dfy` one pass as a function
and the draining of the table, `RelayReport.dfy` a pass told without its groups, `RelaySchedule.dfy` the interleavings of the per-key tasks,
`RelayAmong.dfy` a pass among everyone else's steps, and `RelayLimits.dfy` a run that shows where a plausible claim fails.

**Deduplication.** `DedupStore.dfy` is the one-step dictionary store, as functions and as the
in-memory and SQLite classes. `PostgresClaim.dfy` proves the several-statement claims of
Postgres and Redis against it, with arbitrary other clients between the statements.
`DedupProtocol.dfy` is a step relation for any number of workers with leases, takeovers,
crashes, rebalances and purges (no loss); `DedupCounting.dfy` has the counting law and the
conditions of mutual exclusion; `Deduplicator.dfy` is `process` and the consumer loop;
`Transactional.dfy` the mode in which the dedup row shares the handler's transaction;
`RedisKey.dfy` the key encoding. `EndToEnd.dfy` composes relays, a partitioned log and
transactional consumers.

**Replay and dead letters.** `Reader.dfy` and `Selector.dfy` resolve selections to offset
ranges, `Runner.dfy` is the traversal that a dry run and a real run share, `Dlq.dfy` the
dead-letter message, the replayed message and the loop between them, `Utf8.dfy` and
`Decimal.dfy` the encodings these rely on, and `RateLimiter.dfy` the pacing.

Assumptions that the claims need, and that the library states or implies:

- Rows of one key become visible in `seq` order; commits of different keys may be late.
- All relays of a table use the same ordering, shard count and lock key, and during a run of the
  protocol the same `max_attempts`; draining takes a table with any attempts in it.
- `hashtext`, the UUID and timestamp formats and `str.encode` are arbitrary fixed functions.
- No dedup record of the end-to-end system is purged by key. Expired ones are swept at any time; the
  order of effects holds for ever, their uniqueness within one TTL.

Where code and documentation differ the model follows the code. `docs/replay.md:12` says a dead
letter preserves the headers byte for byte. Repeated header names collapse to the last one:
the headers of a name outside `x-dlq-*` survive if and only if there is at most one of them
(`Dlq.HeaderIsPreserved`, with a record that loses two of three in
`Dlq.RepeatedHeaderIsLost`). What `get_header` reads under a name survives if and only if its
first and last value agree (`Dlq.RepeatedHeader`).

Four claims one might expect are false of the code, and are replaced by their conditions:

- A connection can be ignored silently: exactly when a mode other than transactional was asked
  for by name (`Deduplicator.ResolveMode`).
- Mutual exclusion of handlers is not unconditional, since `release` carries no owner:
  `DedupCounting.LateReleaseBreaksExclusion` is a run in which two workers hold one key at
  once. It holds on a key while no block on that key outlives its lease and no record of a
  running handler is purged by key (`OneHandlerAtATime`). These are the only ways out: at the
  first breach a second worker is granted the held key if and only if the lease has run out or
  the record was just purged (`FirstBreach`). A worker that restarts from the committed offset
  gets to that claim at once, unless somebody is busy with a message before it
  (`OverrunAdmitsAnother`).
- A drained table may keep a pending row in front of the failed row that blocks it, when a
  failure was recorded and the mark of the rows before it was lost
  (`RelayLimits.LostMarkUnsettles`). After draining every pending row stands behind a failed
  row of its key if and only if, before the first pass, every blocked one did
  (`RelayPass.DrainEndsBehind`). Whatever is stranded so was delivered
  (`RelayGuarantees.FailedArePreceded`).
- The starts of a key's transactions are a TTL apart when every sweep is gentle, that is, finds no
  open transaction on its key older than the row's expiry (`Transactional.StartsAreSpaced`). That is
  exactly what it takes: a sweep is gentle if and only if no transaction open at the time can break
  the spacing (`GentleIsExact`), and one that is not has a continuation that breaks it, from every
  reachable state (`UngentleSweepBreaks`, with a short run in `SweepBringsStartsTogether`).

## Model

| member | source | states |
|---|---|---|
| EndToEnd.FirstEffectsArePrefix | docs/quickstart.md:64-91 | in every run of any length of relays, brokers and overlapping, restarting transactional consumers, expired rows swept at any time, the committed handler effects of each keyed stream, by first effect, are a prefix of its outbox rows in `seq` order |
| EndToEnd.EffectsArePrefix | docs/quickstart.md:64-91 | in every such run within one TTL no effect is repeated, and the effects of each keyed stream are themselves that prefix |
| EndToEnd.EveryRowTakesEffect | docs/quickstart.md:64-91 | once every row of a keyed stream is published and its partition is committed to the end, the effects of the stream, by first effect, are all of its rows in `seq` order; within one TTL each exactly once |
| EndToEnd.NoEffectTwice | src/kafka_reliability/dedup/deduplicator.py:190-261 | within one TTL no event id has two committed effects |
| EndToEnd.StepKeepsInv | src/kafka_reliability/outbox/relay.py:305-366 | every step of the composed system keeps: committed offsets have effects behind them, and an effect comes after its stream predecessors' effects |
| RelayGuarantees.FirstAcksArePrefix | src/kafka_reliability/outbox/relay.py:225-256 | for any interleaving of any number of relays, stale leaders and failures included, the acknowledged rows of a non-empty key, by first acknowledgement, are a `seq`-prefix of its rows |
| RelaySafety.StepKeepsInv | src/kafka_reliability/outbox/relay.py:305-339 | each of the sixteen kinds of step keeps the lock, row, acknowledgement and log invariants |
| RelaySafety.RunKeepsInv | src/kafka_reliability/outbox/relay.py:225-287 | the invariant holds in every state of every run |
| RelaySafety.NewTaskOrdered | src/kafka_reliability/outbox/backends/asyncpg_relay.py:36-56 | a claimed group has every unpublished same-key predecessor in front of it, and the published ones acknowledged |
| RelayGuarantees.LeadersExclusive | src/kafka_reliability/outbox/relay.py:217-219 | in every reachable state at most one live session holds each (key, slot) lock, and every lock belongs to a live session |
| RelayGuarantees.OnlyLeaderWrites | src/kafka_reliability/outbox/backends/asyncpg_relay.py:148-162 | a step that changes a row is a statement of a live session that holds its slot's lock; a relay without its session can only send |
| RelayGuarantees.RowsAccountedFor | src/kafka_reliability/outbox/backends/asyncpg_relay.py:111-128 | published rows were acknowledged; a row is failed exactly when its attempts are used up, over whole runs |
| RelayGuarantees.FailedArePreceded | src/kafka_reliability/outbox/relay.py:305-339 | in every reachable state every same-key predecessor of a failed row was acknowledged |
| RelayGuarantees.RowsConserved | src/kafka_reliability/outbox/backends/asyncpg_relay.py:111-128 | over a run, failover included, no committed row is lost or altered, attempts only grow, published and failed are final |
| RelaySchedule.ScheduleIndependent | src/kafka_reliability/outbox/relay.py:239-256 | for every interleaving of the per-key tasks, the final rows, the number each task sent, the summed result counters and each group's sent sequence are those of running the groups one after another |
| RelaySchedule.ClaimStartsPass | src/kafka_reliability/outbox/relay.py:232-239 | a leader's claim starts a pass of fresh tasks over disjoint groups, one for each ordering unit |
| RelaySchedule.PassIsSequential | src/kafka_reliability/outbox/relay.py:225-256 | in any reachable state, a finished pass leaves the table of one sequential pass and reports its counters, however its tasks' steps fell |
| RelayAmong.PassAmongOthers | src/kafka_reliability/outbox/relay.py:225-256 | in any reachable state and with anyone doing anything in between, writers, other relays and stale leaders, a finished pass of a relay that kept its session leaves every claimed row as the sequential pass would, with its sends and counters |
| RelayAmong.OthersApart | src/kafka_reliability/outbox/relay.py:217-219 | tasks of two live publishing relays never share a row, finished or not |
| RelayPass.PassLowersPotential | src/kafka_reliability/outbox/relay.py:305-339 | on any table, even one that another `max_attempts` has left behind, a pass that claims a row strictly lowers the sum of remaining attempts; no pass raises it |
| RelayPass.DrainTerminates | src/kafka_reliability/outbox/relay.py:258-287 | whatever the producer does and whatever the batch size, there are at most as many claiming passes as the first sum, and they leave frontedness as it was |
| RelayPass.DrainedIsBlocked | src/kafka_reliability/outbox/backends/asyncpg_relay.py:36-56 | a claim is empty if and only if every pending row of the shard has a failed row of its own non-empty key |
| RelayPass.PassKeepsSettled | src/kafka_reliability/outbox/relay.py:305-339 | passes leave no pending row in front of a settled one of its key |
| RelayPass.BlockedBehind | src/kafka_reliability/outbox/backends/asyncpg_relay.py:36-44 | once a claim is empty, every pending row of the shard stands behind a failed row of its key if and only if the table is fronted: every blocked one does |
| RelayPass.PassKeepsFronted | src/kafka_reliability/outbox/relay.py:305-339 | a table is fronted after a pass if and only if it was before |
| RelayPass.DrainEndsBehind | src/kafka_reliability/outbox/relay.py:258-287 | after draining, every pending row of the shard stands behind a failed row of its key if and only if the first table was fronted |
| RelayPass.SettledIsFronted | src/kafka_reliability/outbox/backends/asyncpg_relay.py:36-44 | a table with no pending row in front of a published or failed one of its key is fronted |
| RelayLimits.LostMarkUnsettles | src/kafka_reliability/outbox/relay.py:329-338 | a run that ends with an acknowledged, pending, blocked row in front of a failed one |
| RelayPass.PassAt | src/kafka_reliability/outbox/relay.py:305-339 | what a pass does to each row of the table: nothing unless claimed; published, retried or failed, or left, by its position against the first refused row |
| RelayPass.EventIdIsRowId | src/kafka_reliability/outbox/relay.py:358-366 | a consumer that keys on the event id reads the row's own id: a stored header cannot forge it |
| RelayPass.SameStreamSameKey | src/kafka_reliability/outbox/relay.py:358-366 | rows of one topic and non-empty key go out under the same topic and the same present key |
| RelayPass.MessageCarries | src/kafka_reliability/outbox/relay.py:358-366 | a message has the row's topic and payload, its encoded key or none if that is empty, every stored header but `x-event-id`, and the row's id under that |
| RelayReport.PassIsTold | src/kafka_reliability/outbox/relay.py:305-339 | a pass without its groups: acknowledged rows become published and nothing else, refused ones get one more attempt and fail when those are used up, all others stay; sends of a key follow `seq`; a claimed row is left alone only behind a refused one of its key |
| Outbox.ClaimIsGapFree | src/kafka_reliability/outbox/backends/asyncpg_relay.py:45-56 | a claim of any size is in `seq` order and skips no eligible row below one it takes |
| Outbox.ClaimIsFull | src/kafka_reliability/outbox/backends/asyncpg_relay.py:45-56 | an eligible row is left out only of a claim that is full |
| Outbox.ShardIsRemainder | src/kafka_reliability/outbox/backends/asyncpg_relay.py:36-46 | a key's shard is the remainder of its hash, taken without the sign |
| Outbox.SlotsApart | src/kafka_reliability/outbox/relay.py:217-219 | strict relays compete for one lock, sharded ones for one per shard, and the two kinds never for the same |
| Outbox.ShardsPartitionStrictClaim | src/kafka_reliability/outbox/backends/asyncpg_relay.py:36-56 | for every hash and every n of at least 2, the n shards' unlimited claims partition the strict claim |
| Outbox.GroupIsUnit | src/kafka_reliability/outbox/relay.py:342-355 | a group is all claimed rows of one non-empty key, in order, or one keyless row |
| Outbox.GroupsDisjoint | src/kafka_reliability/outbox/relay.py:342-355 | no two groups share a row |
| Outbox.GroupsCover | src/kafka_reliability/outbox/relay.py:342-355 | every claimed row is in a group |
| RelayCode.GroupByKey | src/kafka_reliability/outbox/relay.py:342-355 | the dictionary loop computes these groups |
| RelayCode.OutboxRelay.PublishKey | src/kafka_reliability/outbox/relay.py:305-339 | one group: puts the messages of the lead before the first refusal on the wire, each with its row's topic, key, payload, headers and id, records that refusal, marks the lead; with the connection lost, every row is as before or as that run leaves it |
| RelayCode.OutboxRelay.SendRows | src/kafka_reliability/outbox/relay.py:312-330 | the loop stops at the first refusal, records it, and has sent exactly the rows before it, as messages that carry them |
| RelayCode.OutboxRelay.MarkSent | src/kafka_reliability/outbox/relay.py:331-338 | what was sent is marked in any case, or the store error is reported |
| RelayCode.OutboxRelay.OnSendFailure | src/kafka_reliability/outbox/relay.py:315-329 | a refused row is retried or given up, and counted only once recorded |
| RelayCode.OutboxRelay.Gather | src/kafka_reliability/outbox/relay.py:239-244 | all groups run to their end before a store error is raised |
| RelayCode.OutboxRelay.RunOnce | src/kafka_reliability/outbox/relay.py:225-256 | not leading: nothing happens; leading: exactly one pass over what was claimed, told by its sent and refused rows: the table, the messages on the wire, the counters and the backlog; connection lost: rows only between before and after that pass |
| RelayCode.OutboxRelay.Run | src/kafka_reliability/outbox/relay.py:258-287 | who leads is decided by the locks at the start; a leader's table and wire are those of one pass per turn, and with enough turns the table is drained, what is left standing behind failed rows if and only if the first table was fronted; standing by changes nothing; a connection that lasts for the calls of all turns is not lost; leadership is released in any case |
| RelayCode.TotalsCount | src/kafka_reliability/outbox/relay.py:250-256 | with no store error `published` counts exactly the acknowledged sends, at most one row of each group is retried or failed, and none is if and only if every group was sent whole |
| RelayCode.PassIsReported | src/kafka_reliability/outbox/relay.py:250-256 | the counters are the numbers of sent rows, of refused rows and of those whose attempts are used up, and the messages those of the sent rows |
| RelayCode.BacklogCounts | src/kafka_reliability/outbox/backends/asyncpg_relay.py:130-146 | every row is pending, failed or published in the count, and the backlog is empty exactly when everything is published |
| RelayCode.RelayStore.AcquireLeadership | src/kafka_reliability/outbox/backends/asyncpg_relay.py:73-80 | leads if and only if no other session holds the lock, and is idempotent while the connection lives |
| RelayCode.RelayStore.ReleaseLeadership | src/kafka_reliability/outbox/backends/asyncpg_relay.py:82-92 | gives up its own lock, on a live and on a dead connection, and no other session's |
| RelayCode.RelayStore.Claim | src/kafka_reliability/outbox/backends/asyncpg_relay.py:94-109 | returns the claim query's rows or finds the connection and every lock of the session gone |
| RelayCode.RelayStore.MarkAsPublished | src/kafka_reliability/outbox/backends/asyncpg_relay.py:111-117 | marks all ids or, with the reply lost, all or none |
| RelayCode.RelayStore.RecordAFailure | src/kafka_reliability/outbox/backends/asyncpg_relay.py:119-128 | counts the attempt and gives up the row, or fails with the update done or not |
| RelayCode.RelayStore.Count | src/kafka_reliability/outbox/backends/asyncpg_relay.py:130-146 | the backlog, or an error when any of its queries finds the connection gone |
| RelayCode.RelayStore.Call | src/kafka_reliability/outbox/backends/asyncpg_relay.py:148-162 | every call fails once the connection is gone, and a failed call drops the session's locks |
| PostgresClaim.PostgresDedupStore.TryClaim | src/kafka_reliability/dedup/backends/postgres.py:81-128 | linearizable: the answer, `lease_expired` included, is what the one-step claim answers at some instant within the call, its only change is that step's, and giving up after three tries changes nothing; it gives up only if the key's record vanished three times during the call |
| PostgresClaim.PostgresDedupStore.Try | src/kafka_reliability/dedup/backends/postgres.py:85-127 | the same for one try of three statements with others between them, which ends without an answer only if the record vanished during it |
| PostgresClaim.LiveInBetween | src/kafka_reliability/dedup/backends/postgres.py:116-127 | a record found by the SELECT, which ignores expiry, was live in that state at some instant since the UPDATE missed it |
| PostgresClaim.VanishingsAre | src/kafka_reliability/dedup/backends/postgres.py:126-128 | the count of vanishings rises over a stretch exactly when some step of it took the record away |
| PostgresClaim.PostgresDedupStore.Confirm | src/kafka_reliability/dedup/backends/postgres.py:130-141 | an absent record stays absent |
| PostgresClaim.PostgresDedupStore.Release | src/kafka_reliability/dedup/backends/postgres.py:143-151 | deletes an in-progress record only |
| PostgresClaim.RedisDedupStore.TryClaim | src/kafka_reliability/dedup/backends/redis.py:67-81 | linearizable likewise, except that an expired lease is never reported; it gives up only if a live record vanished or expired three times during the call |
| PostgresClaim.RedisDedupStore.Confirm | src/kafka_reliability/dedup/backends/redis.py:83-87 | an absent record is inserted |
| PostgresClaim.RedisDedupStore.Release | src/kafka_reliability/dedup/backends/redis.py:42-45 | live records afterwards are those the one-step release leaves |
| PostgresClaim.Px | src/kafka_reliability/dedup/backends/redis.py:70-70 | the expiry in whole milliseconds, at least one, less than a millisecond short |
| RedisKey.KeyIsInjective | src/kafka_reliability/dedup/backends/redis.py:57-59 | different groups or keys never share a Redis key, whatever colons they contain |
| DedupStore.OperationsAreEnvSteps | src/kafka_reliability/dedup/backends/memory.py:40-90 | every operation of any client, and time, is a step the claim proofs allow in between |
| DedupStore.ClaimExcludes | src/kafka_reliability/dedup/backends/memory.py:40-54 | after a successful claim the key is answered in-progress or done until the record expires |
| DedupStore.ReleaseUndoesClaim | src/kafka_reliability/dedup/backends/memory.py:61-64 | releasing a fresh claim restores the table |
| DedupStore.ClaimDecides | src/kafka_reliability/dedup/backends/memory.py:40-54 | a claim is granted exactly on an absent or expired record, which it replaces with its state and expiry; a live record is answered by its state and left alone; an expired lease is reported as such |
| DedupStore.ConfirmLasts | src/kafka_reliability/dedup/backends/memory.py:56-59 | a confirmed record is answered AlreadyDone up to its expiry and can be claimed from then on; the kinds of confirm differ exactly on an absent record |
| DedupStore.ReleaseSpares | src/kafka_reliability/dedup/backends/memory.py:61-64 | a release takes away an in-progress record and nothing else; done answers stay |
| DedupStore.SweepSpares | src/kafka_reliability/dedup/backends/memory.py:82-90 | a sweep takes away exactly the expired records of its group, and no claim or done answer changes by it |
| DedupStore.InMemoryDedupStore.TryClaim | src/kafka_reliability/dedup/backends/memory.py:40-54 | the dictionary code is the one-step claim |
| DedupStore.InMemoryDedupStore.Confirm | src/kafka_reliability/dedup/backends/memory.py:56-59 | writes a done record, present or not |
| DedupStore.InMemoryDedupStore.Release | src/kafka_reliability/dedup/backends/memory.py:61-64 | removes an in-progress record, never a done one |
| DedupStore.InMemoryDedupStore.Sweep | src/kafka_reliability/dedup/backends/memory.py:70-90 | removes and counts exactly the expired records of the group |
| DedupStore.InMemoryDedupStore.Forget | src/kafka_reliability/dedup/backends/memory.py:81-81 | removes one key's record and counts it |
| DedupStore.InMemoryDedupStore.Purge | src/kafka_reliability/dedup/backends/memory.py:70-90 | by key, or the expired records; a key without a group is an error and changes nothing |
| DedupStore.SqliteDedupStore.TryClaim | src/kafka_reliability/dedup/backends/sqlite.py:80-109 | the three statements amount to the one-step claim |
| DedupStore.SqliteDedupStore.Confirm | src/kafka_reliability/dedup/backends/sqlite.py:111-120 | an absent record stays absent |
| DedupStore.SqliteDedupStore.Release | src/kafka_reliability/dedup/backends/sqlite.py:122-128 | removes an in-progress record, never a done one |
| DedupStore.SqliteDedupStore.Sweep | src/kafka_reliability/dedup/backends/sqlite.py:156-169 | the chunked loop ends, having removed exactly the records expired at its last reading of the clock and counted each once, although every chunk reads the clock anew; a chunk below one is refused |
| DedupStore.SqliteDedupStore.Purge | src/kafka_reliability/dedup/backends/sqlite.py:141-169 | by key or by sweeping, with both configuration errors |
| DedupCounting.CountingLaw | src/kafka_reliability/dedup/deduplicator.py:218-261 | per group and key, over every run: claims granted are at most one, plus handler exceptions, plus takeovers reported as lease-expired, plus takeovers of TTL-expired records, plus purges |
| DedupCounting.GrantsAreReported | src/kafka_reliability/dedup/backends/memory.py:40-54 | the law counts a grant as the store reports it: as the takeover of a lease exactly when `lease_expired` is reported |
| DedupCounting.BalanceStep | src/kafka_reliability/dedup/backends/memory.py:40-90 | every step keeps the balance behind the law, with pending releases and the record's absence accounted for |
| DedupCounting.OneHandlerAtATime | src/kafka_reliability/dedup/deduplicator.py:212-231 | if every block on a key ends before its lease does and no running handler's record of it is purged by key, at most one worker holds that key at a time, whatever happens on other keys |
| DedupCounting.FirstBreach | src/kafka_reliability/dedup/backends/memory.py:40-54 | in a run sound for a key so far, after any further step a second worker's claim on the held key is granted if and only if the holder's lease has run out or that step purged its record |
| DedupCounting.LateReleaseBreaksExclusion | src/kafka_reliability/dedup/backends/memory.py:61-64 | a run in which a late release lets two workers hold one key within their leases |
| DedupCounting.OverrunAdmitsAnother | docs/recipes/aiokafka_recipe.py:23-37 | a newcomer restarting from the committed offset, running every handler under a claim, reaches a held key's message at once when nobody is busy with the messages before it, and is granted the claim beside the holder if and only if the lease has run out |
| DedupProtocol.CommittedIsHandled | docs/recipes/aiokafka_recipe.py:23-37 | over all crashes, redeliveries and rebalances, every offset below a committed position has a completed handler for its key |
| DedupProtocol.NoLossStep | docs/recipes/aiokafka_recipe.py:23-37 | every step keeps: done records, committed offsets and fetched-past messages are handled |
| DedupProtocol.AlreadyDoneIsHandled | src/kafka_reliability/dedup/deduplicator.py:72-77 | ALREADY_DONE is only ever answered for a key whose handler has completed |
| Deduplicator.ResolveMode | src/kafka_reliability/dedup/deduplicator.py:174-188 | an explicit mode is never replaced; a connection given is not used exactly when another mode than transactional was named; it is an error exactly when transactional mode results without both a connection and a store that supports it |
| Deduplicator.Deduplicator.Process | src/kafka_reliability/dedup/deduplicator.py:190-231 | one block: the entry of the group, or of the replay run's namespace, and the record's own key decides whether the handler runs and how the block ends; no other entry is touched; the handler runs at most once, the offset is held back exactly against a live lease, an exception gives the claim back, `fail_closed` never runs an unclaimed handler |
| Deduplicator.Deduplicator.RunsApart | src/kafka_reliability/dedup/deduplicator.py:200-206 | the namespaces of two replay runs are the same exactly when their decoded ids are, and never the group's own |
| Deduplicator.Deduplicator.ProcessClaimConfirm | src/kafka_reliability/dedup/deduplicator.py:218-231 | claim, run, then confirm or release, with the store failing at either end |
| Deduplicator.Deduplicator.ProcessRecordAfter | src/kafka_reliability/dedup/deduplicator.py:263-271 | check, run, then record; nothing is recorded for a handler that raised |
| Deduplicator.Deduplicator.HandleRecord | docs/recipes/aiokafka_recipe.py:23-31 | in every mode the retry loop ends; it runs the handler, once, exactly if the record of the message's own key was not done, and touches no other; in claim_confirm mode it returns only when the record is done |
| Transactional.EffectIffRow | src/kafka_reliability/dedup/deduplicator.py:222-229 | a committed effect within its TTL exists if and only if its committed, unexpired done row does, for any concurrent and failing transactions and sweeps |
| Transactional.OneEffectPerTtl | src/kafka_reliability/dedup/backends/postgres.py:81-128 | the later of two effects of a key commits at least one TTL after the earlier one's transaction began |
| Transactional.StartsAreSpaced | src/kafka_reliability/dedup/backends/postgres.py:81-128 | when every sweep finds no open transaction on its key older than the row's expiry, even the transactions' starts are a TTL apart |
| Transactional.GentleIsExact | src/kafka_reliability/dedup/backends/postgres.py:164-203 | the next sweep is such a one if and only if no transaction open at the time breaks the spacing by claiming and committing after it |
| Transactional.UngentleSweepBreaks | src/kafka_reliability/dedup/backends/postgres.py:164-203 | in every reachable state a sweep that meets an older open transaction has a continuation in which two starts are closer than a TTL |
| Transactional.SweepBringsStartsTogether | src/kafka_reliability/dedup/backends/postgres.py:164-203 | a run from the start with two effects begun at the same instant |
| Transactional.StepKeepsInv | src/kafka_reliability/dedup/deduplicator.py:242-245 | every step keeps one holder per key, rows guarding effects, and effects behind rows |
| Runner.HitsAreFirstPassing | src/kafka_reliability/replay/runner.py:249-265 | what is sent is exactly the first `max_messages` passing records of the concatenated ranges |
| Runner.LookIsScan | src/kafka_reliability/replay/runner.py:243-285 | the loop's counters and hits are those of the scanned prefix |
| Runner.ScanTakes | src/kafka_reliability/replay/runner.py:246-250 | the scanned prefix holds exactly the first `max` passing records |
| Runner.ScanIsShortest | src/kafka_reliability/replay/runner.py:246-250 | reading stops right after the limit's last hit, or at the end |
| Runner.TallyCounts | src/kafka_reliability/replay/runner.py:251-265 | each counter is the number of scanned records it is named after |
| Runner.ScannedIsMatchedPlusSkipped | src/kafka_reliability/replay/runner.py:251-265 | scanned is matched plus skipped, in total |
| Runner.PartitionScannedIsMatchedPlusSkipped | src/kafka_reliability/replay/runner.py:251-265 | and for each partition |
| Runner.SamplesAreFirstHits | src/kafka_reliability/replay/runner.py:268-269 | the samples are the first three hits |
| Runner.TimesAreExtremes | src/kafka_reliability/replay/runner.py:266-267 | oldest and newest are the least and greatest timestamp of the hits |
| Runner.CommitBounds | src/kafka_reliability/replay/runner.py:285-290 | in each range exactly the records below the committed offset were looked at: sent or counted as skipped; none at or above it was sent |
| Runner.SentWithinBound | src/kafka_reliability/replay/runner.py:225-230 | hits never exceed min(total_records, max_messages) |
| Runner.SkipReasons | src/kafka_reliability/replay/runner.py:306-317 | a record is skipped for the predicate exactly if that rejects it, for its counter exactly if that is at the limit, as illegible exactly if it cannot be read, and sent otherwise |
| Runner.Decides | src/kafka_reliability/replay/runner.py:214-230 | refusal by target or selection, and the need for confirmation, exactly |
| Runner.EndIsTold | src/kafka_reliability/replay/runner.py:221-304 | how a run ends, without its loop: which records were read, that exactly the wanted ones among them were sent and logged, each as its replay, what the plan counts by partition and by reason, and what is committed |
| Runner.SameAgain | src/kafka_reliability/replay/selector.py:103-114 | replaying a resolved selection by offset reads, counts and sends the same |
| Runner.ReplayRunner.Traverse | src/kafka_reliability/replay/runner.py:221-304 | refusal and missing confirmation touch nothing; a completed run has read up to the limit and sent, logged, counted and committed exactly the accepted records whose counter is below its limit; a failed send ends it with those before it sent and nothing committed |
| Runner.ReplayRunner.Walk | src/kafka_reliability/replay/runner.py:243-285 | the nested loops compute this, although a full run leaves the inner loop only |
| Runner.ReplayRunner.Visit | src/kafka_reliability/replay/runner.py:251-280 | counting is the same in both runs; the one branch is the send |
| Runner.ReplayRunner.DryRun | src/kafka_reliability/replay/runner.py:205-207 | the full and true plan with nothing sent, logged or committed |
| Runner.ReplayRunner.Execute | src/kafka_reliability/replay/runner.py:209-212 | sends exactly the accepted records whose counter is below its limit, and one that sends more than `confirm_above` was confirmed or had `assume_yes` |
| Runner.ReplayRunner.RehearseThenExecute | src/kafka_reliability/replay/runner.py:205-212 | on an unchanged topic a completed run's plan is its dry run's, apart from the id and the flag |
| Dlq.PoisonLoop | src/kafka_reliability/replay/runner.py:306-333 | alternating replay and dead-lettering of any record, from count c: at most max(0, max_replay_count - c) rounds, one more each round, none at all from an unreadable count; the value stays, the key stays or is dropped as `preserve_key` says, and every header outside `x-dlq-*` and the replay stamps, the first failure and the trace id keep the last value they had |
| Dlq.LosslessLoop | src/kafka_reliability/replay/dlq.py:121-150 | after any number of rounds the key is the same if and only if `preserve_key` is set or there was none, and the values under such a name if and only if there was at most one |
| Dlq.OneRound | src/kafka_reliability/replay/dlq.py:121-150 | one round of any record: the count was below the limit and goes up by one, and what it carries over |
| Dlq.DedupKeySurvives | src/kafka_reliability/replay/runner.py:319-333 | the `x-event-id` header reads the same after any number of rounds if and only if its first and last value agree, as with unique names |
| Dlq.DeadLetterHeader | src/kafka_reliability/replay/dlq.py:121-150 | what a dead letter carries under each header name |
| Dlq.DeadLetterLocates | src/kafka_reliability/replay/dlq.py:131-137 | source topic, partition, offset and attempts can be read back from a dead letter |
| Dlq.DeadLetterFails | src/kafka_reliability/replay/dlq.py:115-119 | a dead letter cannot be built exactly when it has no topic or its error text cannot be encoded |
| Dlq.TraceIdIs | src/kafka_reliability/replay/dlq.py:177-189 | the trace id is that of an earlier dead letter or the second field of `traceparent`, an empty one counting as none |
| Dlq.RepeatedHeader | src/kafka_reliability/core/message.py:34-43 | what `get_header` reads under a name outside `x-dlq-*` survives dead-lettering if and only if the first and last value agree |
| Dlq.HeaderIsPreserved | src/kafka_reliability/replay/dlq.py:121-150 | the values under a name outside `x-dlq-*` survive dead-lettering, as the documentation promises, if and only if there is at most one |
| Dlq.RepeatedHeaderIsLost | src/kafka_reliability/replay/dlq.py:121-129 | a record with three `a` headers, the first and last equal, comes out with one |
| Dlq.Build | src/kafka_reliability/replay/dlq.py:121-150 | filling the dictionary step by step gives that message |
| Dlq.ReplayHeader | src/kafka_reliability/replay/runner.py:319-333 | what a replayed message carries under each header name |
| Utf8.TruncateIsLongestPrefix | src/kafka_reliability/replay/dlq.py:173-174 | for every encodable text and limit: the encoding of the longest prefix of whole characters that fits, at most `limit` bytes, at most three lost to the boundary, decodable to that prefix |
| Utf8.DecodePrefix | src/kafka_reliability/replay/dlq.py:173-174 | the ignoring decoder drops only the cut tail |
| Utf8.DecodeEncode | src/kafka_reliability/replay/dlq.py:173-174 | decoding undoes encoding |
| Utf8.DecodeIsStrict | src/kafka_reliability/replay/dlq.py:173-174 | the decoder takes nothing but its encoding for a character: no overlong form, no surrogate |
| Decimal.ParseFormat | src/kafka_reliability/replay/runner.py:312-312 | reading the replay counter undoes writing it, for every integer |
| Decimal.ParseSpaced | src/kafka_reliability/replay/runner.py:312-312 | white space around a number is looked past |
| Decimal.ParseSigned | src/kafka_reliability/replay/runner.py:312-312 | and so is a sign in front, which counts |
| Decimal.Unreadable | src/kafka_reliability/replay/runner.py:311-314 | white space alone, or any byte that is not ASCII, is no number |
| Message.FirstIsLast | src/kafka_reliability/core/message.py:34-43 | with unique names the first match of `get_header` is the value a mapping keeps |
| Message.CollapsesToLast | src/kafka_reliability/core/message.py:34-43 | headers read back from a mapping have the values of the original headers under a name if and only if those are at most one |
| Message.GetHeaderIsFirst | src/kafka_reliability/core/message.py:34-43 | `get_header` returns the value at the least index that carries the name |
| Selector.WindowIsExact | src/kafka_reliability/replay/selector.py:147-159 | with non-decreasing timestamps a time window resolves to exactly the records with from <= timestamp < to in milliseconds, offset gaps included |
| Selector.AsSelectionRoundTrip | src/kafka_reliability/replay/selector.py:103-114 | on an unchanged topic a resolved selection, given back by offset, resolves to exactly its non-empty ranges if it has one, and is refused if it has none |
| Selector.ChosenMeans | src/kafka_reliability/replay/selector.py:127-136 | the partitions read are those asked for, each once, or all; asking for an unknown one, or ending with none, is an error |
| Selector.OffsetsAreExact | src/kafka_reliability/replay/selector.py:145-149 | an offset window resolves to exactly its records, a side not given being open |
| Selector.WholePartition | src/kafka_reliability/replay/selector.py:138-142 | without a boundary the range is the partition, from its first record to its last |
| Selector.NotesTell | src/kafka_reliability/replay/selector.py:156-164 | the caveat is noted exactly when a time is given, and then the partitions without records, if any |
| Selector.CountIsSpan | src/kafka_reliability/replay/selector.py:72-74 | a range counts its offsets |
| Selector.RangesInBounds | src/kafka_reliability/replay/selector.py:159-161 | ranges are one per partition, in order, within the topic's bounds |
| Selector.MsCutsTowardsEpoch | src/kafka_reliability/replay/selector.py:168-170 | the millisecond cut is off by less than one, and never late if and only if the time is after the epoch or whole |
| Selector.Resolve | src/kafka_reliability/replay/selector.py:125-165 | filling and overwriting the dictionaries computes the ranges and the notes, or refuses unknown partitions and empty choices |
| Selector.WithinCount | src/kafka_reliability/replay/selector.py:66-89 | a range reads at most as many records as its offsets span |
| Reader.OffsetForTimeIsFirst | src/kafka_reliability/replay/reader.py:70-77 | the lookup finds the first record at or after the time, or none is |
| Reader.InMemoryReader.OffsetsForTimes | src/kafka_reliability/replay/reader.py:70-77 | one such answer for each partition asked for |
| Reader.InMemoryReader.Read | src/kafka_reliability/replay/reader.py:83-87 | the records of the half-open range, and the read is logged |
| RateLimiter.RateBound | src/kafka_reliability/replay/runner.py:160-182 | the i-th and j-th wait return at least j - i - 1 intervals apart, j - i when the i-th sleep is exact |
| RateLimiter.FromTheFirst | src/kafka_reliability/replay/runner.py:175-182 | the n-th wait returns at least n - 1 intervals after the first |
| RateLimiter.OvershootIsTight | src/kafka_reliability/replay/runner.py:175-182 | one interval less is the best there is after an overshoot |
| RateLimiter.FullSpeed | src/kafka_reliability/replay/runner.py:175-182 | callers that come back at once, with exact sleeps, get through exactly once per interval |
| RateLimiter.NoNeedlessWait | src/kafka_reliability/replay/runner.py:175-182 | a caller that comes an interval later does not wait |
| RateLimiter.Limiter.WaitAll | src/kafka_reliability/replay/runner.py:175-182 | a sequence of calls returns at the times these lemmas are about |

## Left out

- RelayCode.OutboxRelay.Gather: runs the groups one after another; that the concurrent interleavings of `gather` give the same is `RelaySchedule.ScheduleIndependent`, on the step relation. A store method raising anything but a store error out of a task is not modelled.
- RelayCode.OutboxRelay.RunOnce: nobody else touches the table between the statements of this class; that a pass among others does the same to its rows is `RelayAmong.PassAmongOthers`.
- RelayCode.RelayStore.Call: frees the session's locks on the server when the client finds the connection gone; `RelayProtocol.dfy` keeps the two apart.
- RelayCode.OutboxRelay.Run: no other session's lock changes during the run, and the delays between passes, their exponential backoff and the stop event are not modelled, only the number of passes.
- RelayCode.RelayStore.Count: leaves out the age of the oldest pending row, which is the database's clock.
- RelaySchedule.ScheduleIndependent: assumes that a send's outcome depends only on its row and that the store stays up, and speaks of a pass with nobody else at work; `RelayAmong.PassAmongOthers` lets everyone work, for the claimed rows.
- RelayAmong.PassAmongOthers: a stale leader may send the same rows again at the same time, so it speaks of each task's own sends, not of the order of all acknowledgements.
- EndToEnd.EffectsArePrefix: speaks of the rows of one key and one topic, since Kafka keeps no order between topics, and of runs within one TTL; `EndToEnd.FirstEffectsArePrefix` has the order without that bound.
- Transactional.OneEffectPerTtl: measures from the earlier transaction's start to the later one's commit, since the expiry counts from the start of the transaction and a swept row guards nothing.
- PostgresClaim.PostgresDedupStore.TryClaim: a connection lost between the statements of a claim is not modelled, only contention; the UPDATE with its sub-select is one atomic step.
- PostgresClaim.RedisDedupStore.TryClaim: key expiry is exact to the model's clock, and the server's lazy deletion is not visible.
- DedupStore.SqliteDedupStore.TryClaim: atomic within one event loop; several processes on one database file are not modelled.
- Deduplicator.Deduplicator.Process: over the dictionary store, whose clock stands still except while the handler runs; transactional mode is `Transactional.dfy`.
- DedupCounting.OverrunAdmitsAnother: when someone is busy with a message in front of the held one, the newcomer has to wait for it, and nothing is said.
- Deduplicator.Deduplicator.HandleRecord: for a lease whose holder is gone; with other workers active the loop is part of `DedupProtocol.dfy`, without a claim that it ends.
- DedupCounting.CountingLaw: counts claims, so handlers run by `fail_open` and `replay_policy="bypass"` are outside it by design.
- Selector.Resolve: fills the two dictionaries one after the other; the notes are values, not text.
- Runner.ReplayRunner.Traverse: the rate limiter's waits, metrics and the closing of the audit file are not part of it; ids, the clock and send outcomes are parameters.
- RateLimiter.RateBound: times are real numbers; floating-point rounding is not modelled.
- Decimal.ParseFormat: the interpreter's limit on the number of digits is not modelled.
- Dlq.PoisonLoop: the record read back from a topic carries the produced headers in some order, with unique names; the error text is any text.
- The Postgres purge loop among other clients is an environment step; the outbox retention sweep, header filters, JSON paths, payload hashing, revocation signals and the error hierarchy are left out as easy beside the rest.
- SQL text, DDL, the outbox writers, the Kafka and Redis client libraries, `AiokafkaReader`, metrics, logging, report formats, audit files and the command line are I/O or text.
- Operator resets of failed rows, `close()` during a running pass and relays of mixed shard configurations are not promised by the code and not modelled.
