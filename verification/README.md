# MazeDNS core, verified

A Dafny model of the parts of MazeDNS whose correctness depends on several functions
working together, with proofs over every run or every input.

| file | what it models |
|---|---|
| PipePool.dfy | the pool of pipelined upstream connections: slots, learned limit, ceiling, wake-ups |
| PoolGrowth.dfy | how the pool learns its limit |
| PipeConn.dfy | one pipelined connection: 16-bit IDs, the reader, failure (section 6.2.1.1 of RFC 7766, section 3.3 of RFC 7858) |
| PipeEngine.dfy | the pool and its connections together |
| Forward.dfy | ordered and hedged failover over a list of upstreams |
| ForwardRcodes.dfy | what failover promises in terms of response codes |
| QuestionKey.dfy | the key of a question, shared by cache and coalescing |
| Singleflight.dfy | coalescing of concurrent forwards |
| Replication.dfy | the agent's copy of the configuration, its persisted version, and "304 Not Modified" |
| KeyRotation.dfy | node-key rotation on the poll |
| ConfigVersion.dfy | the content hash, the rewrites chosen for a node, and the batched versions |
| RewriteScopes.dfy | which rewrite a node is served, in terms of scopes |
| Cache.dfy | the answer cache: serve-stale (section 4 of RFC 8767), eviction, negative TTLs (section 5 of RFC 2308) |
| Keyring.dfy | the day keys behind client pseudonyms |
| DomainTracker.dfy | k-anonymity for domains |
| DomainPromise.dfy | k-anonymity in terms of the queries that came in |
| Scrub.dfy | the privacy policy and the background scrub |
| Relabel.dfy | relabelling stored queries together with their hourly rollup |
| RelabelMeaning.dfy | the rollup's counts as numbers of rows |
| CategoryIndex.dfy, CategoryNames.dfy | the packed category index, and what it makes of names |
| Builtin.dfy | the built-in platform table and the part sent to agents |
| RateLimiter.dfy | the sharded rate limiter with its bounded sweep |
| LogShipping.dfy | the log ring, its shipping and the deduplicating ingest |
| LogWire.dfy, LogDecode.dfy | the encoded body of a shipped batch, the limit on it, and what is read back of it |
| Wrappers.dfy, DomainNames.dfy, PrivacyTerms.dfy | shared definitions |

Objects that the program updates in place are classes; each method's postcondition gives the
whole new state as a function of the old one (`State() == Step(old(State()))`), and the
lemmas reason about those functions over all interleavings. Protocols are state machines
whose steps include lost answers, failing writes and restarts. A failing write is an input
(`failAt`, `stop`, `Faults`, `Io`), so a contract covers every point of failure. Go's map
iteration order is an arbitrary choice. Clocks are integers given as inputs, and every
function the model does not open (hashes, the Public Suffix List, the HMAC of a pseudonym, the
network's events) is a parameter.

Where a promise of the code's comments does not hold, the code is kept and a lemma names the
exact condition together with a run or input that shows it:

- a query whose own dial failed can sleep with nobody left to wake it
  (`FailedDialStrandsIff`, `StrandingRunExists`);
- a counted drop, meant to lower the limit, can raise it (`DropRaisesIff`, `DropCanRaise`);
- `forwardOrdered` can wait with nobody left to answer (`WaitsForNobodyIff`);
- a 304 can leave dropped settings on an agent that could not read its settings row at
  start-up, or new settings not yet in force (`NotModifiedIsSafe`, `SettingsInForceIff`,
  `StaleSettingsCanPass`, `OwedSettingsCanPass`);
- an agent that keeps another node id than the served one is sent every snapshot in full
  (`NextPollIsQuietIff`, `ForeignIdIsNotQuiet`);
- a poll finished after the agent gave up on it can retire the agent's key
  (`LateRequestLocksOutIff`, `LateGraceLocksOut`, `LateCurrentLocksOut`);
- batched config versions differ from the per-node ones if a field holds a newline
  (`BatchIsPerNodeIff`, `NewlineConfusesBatch`);
- a scrub of all history does nothing once one stored timestamp is zero or negative
  (`RedoReducesIff`, `StuckReducesNothing`, `SkippedForGood`, `ZeroTimestampSkips`);
- a relabelling that cannot read the rollup cursor moves the rows and not their counts
  (`AllDifferencesKeptIff`, `UnreadCursorMovesRowsOnly`);
- a timer that fires after its ID came round unregisters another query
  (`ExpireForgetsIff`, `StaleTimerForgets`);
- a late batch of an agent's earlier start is ingested again (`IngestKeepsOrderIff`,
  `LateBatchIsTakenAgain`);
- a batch of log lines within its budget can be too long once encoded, and is then lost
  (`BatchAcceptedIff`, `RefusedIsLost`, `OversizedBatchIsLost`);
- the pass after midnight drops a day's key and keeps its counts: a late query then counts
  its device a second time, and a name can be stored for one device alone
  (`CountedTwiceIff`, `LateQueryRevealsName`);
- a name that was kept is hidden by a later pass once counts were dropped and are read back
  from the reduced log, after a restart or past midnight (`DecidedStays`,
  `KeptNameStaysIff`, `RestartHidesKeptName`, `OverlapHidesKeptName`);
- the limiter reads the clock before its lock: times that run back can cost a counter or
  admit more than twice the limit (`AtMostTwiceTheLimit`, `BackwardsAdmitsMore`);
- answers whose only TTL is 2^32 - 1 count as having none (`TTLHonoursRecords`,
  `GreatestTTLIsIgnored`).

## Model

| member | source | states |
|---|---|---|
| `PipePools.EveryRun` | internal/resolver/pipeline.go:143-280 | in every interleaving of get, dial, release, wake-up, give-up and connection death: each load is the number of unreleased queries on that connection and at most 64, dialing <= 8, open + dialing <= 64, grown < limit, 1 <= limit <= 64, and every waiter sleeps on the current wake-up channel or a closed one |
| `PipePools.RunKeepsInv` | internal/resolver/pipeline.go:143-280 | the same from any accounted pool, with every query in one place at a time |
| `PipePools.StepKeepsAccounts` | internal/resolver/pipeline.go:148-242 | each single critical section keeps the accounts |
| `PipePools.GetBounded` | internal/resolver/pipeline.go:148-198 | one pass of `get` reserves only below the limit, opens only within the bounds, and otherwise waits on the current channel |
| `PipePools.LimitInRange` | internal/resolver/pipeline.go:201-254 | the effective limit is between 1 and the learned one, and the connection count it allows between 8 and 64 |
| `PipePools.WaitMeansFull` | internal/resolver/pipeline.go:148-198 | a query sleeps only if every connection that stays is at the limit and no more may be opened, and then some query holds a slot or dials, so a wake-up will come |
| `PipePools.CeilingHolds` | internal/resolver/pipeline.go:214-254 | while the ceiling lasts and no other drop is counted, no reservation goes above it |
| `PipePools.DropCapsReservations` | internal/resolver/pipeline.go:214-254 | after a counted drop with n queries in flight no query is placed as the n-th or later until the ceiling expires or another drop is counted |
| `PoolGrowth.StepMovesLimit` | internal/resolver/pipeline.go:214-242 | what every step of any query does to the limit: a counted drop with n in flight sets it to max(1, n/2), the last of as many successes at the limit as the limit doubles it (or adds one once a drop was counted) up to the most allowed, and nothing else moves it |
| `PoolGrowth.LimitRises` | internal/resolver/pipeline.go:228-241 | over every drop-free run, after as many successes at the limit as the limit it is min(2 limit, most), or min(limit + 1, most) once a drop was counted |
| `PoolGrowth.LimitStays` | internal/resolver/pipeline.go:228-236 | with fewer it stays |
| `PoolGrowth.FreshPoolWidens` | internal/resolver/pipeline.go:228-241 | over every drop-free run of a fresh pool the limit is the greatest power of two at most two more than the number of successes at the limit, 64 from 62 on |
| `PoolGrowth.ReachesMost` | internal/resolver/pipeline.go:143-242 | a run in which a fresh pool reaches 64 |
| `PoolGrowth.LearnedStepsByOne` | internal/resolver/pipeline.go:237-241 | over every run after a counted drop no step but another counted drop raises the limit by more than one |
| `PoolGrowth.DropRaisesIff` | internal/resolver/pipeline.go:209-227 | a counted drop raises the limit exactly if twice the limit and two or more queries were in flight on that connection |
| `PoolGrowth.DropCanRaise` | internal/resolver/pipeline.go:209-227 | a run in which it does |
| `PipePools.FailedDialStrandsIff` | internal/resolver/pipeline.go:176-197 | a query whose own dial failed while connections are listed is left with nobody to wake it exactly when no query holds a slot and its dial was the last: the wait at lines 191-196 does not look for a free slot again |
| `PipePools.StrandedOnlyByFailedDial` | internal/resolver/pipeline.go:148-198 | whoever is stranded waits after a dial of its own that failed |
| `PipePools.StrandingStepIsFailedDial` | internal/resolver/pipeline.go:148-242 | of all steps of all queries, only a query's own failed dial can strand it |
| `PipePools.StrandingRunExists` | internal/resolver/pipeline.go:176-197 | a five-step run from an empty pool in which a query sleeps beside an idle live connection |
| `PipePools.LiveMeaning` | internal/resolver/pipeline.go:259-280 | the connections kept are exactly the listed ones neither dead nor idle and quiet |
| `PipePools.LeastMeaning` | internal/resolver/pipeline.go:259-280 | the connection chosen is one of least load among those kept |
| `PipePools.PipePool.LeastLoadedLocked` | internal/resolver/pipeline.go:259-280 | the in-place scan drops exactly the dead and quiet connections, keeps the order of the rest and returns the first of least load |
| `PipePools.PipePool.GetLocked` | internal/resolver/pipeline.go:148-180 | the first critical section, on the fields, is the `Get` the lemmas reason about |
| `PipePools.PipePool.DialDone` | internal/resolver/pipeline.go:181-197 | both outcomes of a dial: the slot count, the error time, the wake-up and the new connection |
| `PipePools.PipePool.ReleaseSlot` | internal/resolver/pipeline.go:214-242 | the whole state after a release: freed slot, wake-up, learned limit, ceiling and growth |
| `PipeConns.EveryRun` | internal/resolver/pipeline.go:300-425 | in every interleaving on one connection each waiter's one-slot channel gets at most one message, so no send blocks; and unless a query waits while 2^16 more IDs are given out, each query is registered or has its message |
| `PipeConns.RunKeepsInv` | internal/resolver/pipeline.go:331-425 | registered queries are inside `exchange` under their own ID with an empty channel, no channel ever holds two messages, and a registered ID is the latest one given out |
| `PipeConns.RunKeepsComplete` | internal/resolver/pipeline.go:331-425 | no query is forgotten |
| `PipeConns.SearchFindsFree` | internal/resolver/pipeline.go:343-349 | with fewer than 2^16 registered the wrapping search ends on an unused ID after at most as many steps as there are registered queries |
| `PipeConns.SearchIsSafe` | internal/resolver/pipeline.go:331-349 | registered <= in exchange <= 64, so the search always ends |
| `PipeConns.AnswerReachesAsker` | internal/resolver/pipeline.go:388-404 | an answer goes to the query that asked under that ID or to nobody, as long as fewer than 2^16 IDs were handed out since |
| `PipeConns.FailReleasesAll` | internal/resolver/pipeline.go:407-425 | `fail` signals exactly the waiters still registered, after which every query has exactly one message |
| `PipeConns.DeadStays` | internal/resolver/pipeline.go:331-335 | a failed connection registers nobody and stays as it failed |
| `PipeConns.ExpireForgetsIff` | internal/resolver/pipeline.go:379-383 | a timeout forgets nobody exactly when its ID is free or still its own |
| `PipeConns.StaleTimerForgets` | internal/resolver/pipeline.go:331-384 | a run of 65537 queries after which the timer of an answered one unregisters another, which then waits on a live connection that does not know it |
| `PipeEngine.EveryRun` | internal/resolver/pipeline.go:109-141 | in every interleaving of the pool and all its connections: whoever holds a slot and is not inside `exchange` can register, each connection has no more queries inside than slots taken, at most 64, and both the pool's and each connection's invariants hold |
| `PipeEngine.RunKeepsJoined` | internal/resolver/pipeline.go:109-141 | a query is inside `exchange` only on the connection whose slot it holds, each attempt there is one such query's, and a connection has failed exactly when the pool takes it for dead |
| `PipeEngine.SlotAdmitsExchange` | internal/resolver/pipeline.go:109-141 | a query that holds a slot finds fewer than 64 others in `exchange` on its connection |
| `PipeEngine.ClosingDisturbsNobody` | internal/resolver/pipeline.go:259-280 | a connection the pool closes as idle has no query inside `exchange` |
| `PipeConns.SearchID` | internal/resolver/pipeline.go:343-349 | the loop finds the first free ID from nextID on |
| `PipeConns.PipeConn.RegisterQuery` | internal/resolver/pipeline.go:335-352 | registering a query on the fields |
| `PipeConns.PipeConn.ReadOne` | internal/resolver/pipeline.go:392-402 | one answer: its waiter is served and unregistered, an unknown ID changes nothing |
| `PipeConns.PipeConn.Forget` | internal/resolver/pipeline.go:372-383 | a timed-out query unregisters its ID |
| `PipeConns.PipeConn.Fail` | internal/resolver/pipeline.go:407-425 | the first failure releases every waiter, later ones change nothing |
| `ForwardRcodes.OrderedOutcome` | internal/resolver/forward.go:121-222 | over every run: a response with a code other than SERVFAIL and REFUSED is returned as it comes; else the first SERVFAIL, else (none received) the first REFUSED, else the error of the last report, and these only once the budget is spent or all have reported |
| `ForwardRcodes.OrderedEndsAtOnce` | internal/resolver/forward.go:164-171 | such a response ends the loop at once, with its upstream's index |
| `ForwardRcodes.OrderedFailsOver` | internal/resolver/forward.go:127-156 | a SERVFAIL, REFUSED or error of the upstream started last starts the next one at once, to be waited for `per`, or if it is the last all that is left |
| `ForwardRcodes.OrderedTimesOut` | internal/resolver/forward.go:214-220 | so does the end of its wait |
| `ForwardRcodes.HedgedOutcome` | internal/resolver/forward.go:231-306 | hedged: the same choice, and without an answer only once all n have reported |
| `ForwardRcodes.HedgedEndsAtOnce` | internal/resolver/forward.go:268-271 | an answer ends the hedged loop at once |
| `ForwardRcodes.HedgedLaunches` | internal/resolver/forward.go:264-292 | the hedge delay, or a SERVFAIL, REFUSED or error of the first upstream, sends the query to all others at once |
| `Forwarding.EveryTurn` | internal/resolver/forward.go:121-222 | at every turn upstreams were started in list order, each only after its predecessor failed or its wait was over, and the loop variables agree with what was received |
| `Forwarding.EndsWithin` | internal/resolver/forward.go:150-221 | the ordered loop has an outcome within 2n turns |
| `Forwarding.OutcomeIsOwed` | internal/resolver/forward.go:121-222 | the outcome is the first real answer, else the first SERVFAIL, else the first REFUSED, else an error, with the index that produced it; without a real answer only once the budget is spent or all have reported |
| `Forwarding.WaitsForNobodyIff` | internal/resolver/forward.go:196-216 | the loop is left waiting for nobody exactly when the last running upstream that fails is not the one started last (the `continue` at lines 202-204) |
| `Forwarding.WaitsForNobodyHappens` | internal/resolver/forward.go:196-216 | two failed upstreams and a loop that still waits |
| `Forwarding.BestGrows` | internal/resolver/forward.go:67-84 | how one more result changes the best one |
| `Forwarding.ForwardOrdered` | internal/resolver/forward.go:121-222 | the loop itself returns the outcome of the run within 2n events |
| `Forwarding.OrderedTurn` | internal/resolver/forward.go:164-220 | one pass of the select statement: the outcome and every loop variable after any event |
| `Forwarding.HEveryTurn` | internal/resolver/forward.go:231-306 | hedged: the first upstream alone until 30 ms passed or it failed, then all; the outcome rule and, without a real answer, only once all n reported |
| `Forwarding.HEndsWithin` | internal/resolver/forward.go:262-305 | the hedged loop has an outcome within n + 1 turns |
| `Forwarding.HOutcomeIsOwed` | internal/resolver/forward.go:231-306 | the hedged outcome is the best received, and without a real answer all n upstreams have reported |
| `Forwarding.ForwardHedged` | internal/resolver/forward.go:231-306 | the hedged loop returns that outcome within n + 1 events |
| `Forwarding.HedgedTurn` | internal/resolver/forward.go:264-304 | one pass of the hedged select statement: the outcome and every loop variable after any event |
| `QuestionKeys.KeyIdentifies` | internal/cache/cache.go:77-108 | two questions have one key exactly when they agree on the DNSSEC variant, class, type and name up to ASCII case |
| `QuestionKeys.DecimalInjective` | internal/cache/cache.go:83-95 | decimal renderings differ for different numbers |
| `QuestionKeys.ForwardKey` | internal/resolver/singleflight.go:88-105 | the coalescing key |
| `QuestionKeys.KeyFor` | internal/cache/cache.go:83-95 | the cache key: the same function |
| `Singleflights.EveryRun` | internal/resolver/singleflight.go:59-82 | in every interleaving at most one fn runs per key, every caller returns the result of the fn of the call it joined, and no waiter is left without a result or a running leader |
| `Singleflights.CallJoins` | internal/resolver/singleflight.go:61-72 | who calls for a key in flight waits for that call, who calls for another leads a new one |
| `Singleflights.DeleteRemovesOwnCall` | internal/resolver/singleflight.go:76-80 | a leader deletes its own call and nothing else |
| `Singleflights.Singleflight.Join` | internal/resolver/singleflight.go:61-72 | joining the call in flight or leading a new one |
| `Singleflights.Singleflight.Remove` | internal/resolver/singleflight.go:76-80 | the call of that key, and no other, is forgotten |
| `Replication.PrintIdentifies` | internal/store/cluster.go:147-171 | equal fingerprints imply equal tables, when each table is unchanged or re-inserted since |
| `Replication.EqualPrintsEqualTables` | internal/store/cluster.go:140-171 | over every run of polls, lost answers, failed writes and restarts, two moments with equal fingerprints have equal rules, rewrites and forwarders |
| `Replication.LookupIsHash` | internal/store/cluster.go:177-214 | whatever reads and writes fail, a version `LocalConfigVersion` returns is the hash of the current tables; it returns one exactly if the persisted one still stands for them or a new one can be computed and stored |
| `Replication.RecordIsHash` | internal/store/cluster.go:192-214 | so is one returned by `RecordLocalConfigVersion`, and a write cut short leaves no pair that validates wrongly |
| `Replication.AdvertisedIsHeld` | internal/cluster/agent.go:432-536 | over every run the version an agent advertises is the hash of what its tables hold |
| `Replication.NotModifiedIsSafe` | internal/api/api.go:878-968 | over every run a "304 Not Modified" finds the agent holding the config, pause, maintenance flag and node id; its stored settings are the served ones exactly when its start could read them, and then in force exactly when none are owed |
| `Replication.AnswerIsOwed` | internal/api/api.go:878-912 | a served poll is answered 304 exactly under the conditions written out on headers, configuration and flags, and else with all that is served, unchanged |
| `Replication.PollConverges` | internal/cluster/agent.go:444-536 | over every run of labelled rules: a poll asked, served and received without a failure leaves tables that hash like what is served, its pause and maintenance flag in force, and its settings stored, unless there are none and the start could not read those stored |
| `Replication.ApplyIsAtomic` | internal/store/cluster.go:397-433 | every row replaced in order, an empty category as "custom", or none if any statement fails |
| `Replication.SettingsInForceIff` | internal/cluster/agent.go:487-528 | after any sync the stored settings are in force exactly if it applied them and could read them back (or none are stored), or did not apply them and they were in force before |
| `Replication.StaleSettingsCanPass` | internal/cluster/agent.go:156-170 | a run in which an agent that could not read its settings row at start-up is answered 304 with settings the control plane dropped |
| `Replication.OwedSettingsCanPass` | internal/cluster/agent.go:494-536 | a run in which new settings come with a config that fails to apply and is then taken back: 304 while the old settings are still in force |
| `Replication.NamingChangesIff` | internal/store/cluster.go:412-420 | storing "custom" for an empty category changes the hash exactly when some rule has none |
| `Replication.CleanSyncConverges` | internal/cluster/agent.go:444-536 | after a full snapshot applied without a failure the tables hash like it exactly when each served rule has a category |
| `Replication.NextPollIsQuietIff` | internal/api/api.go:878-968 | over every run, once the full snapshot is received without a failure and is still what is served, the next poll is answered 304 exactly when the agent had no node id or the served one |
| `Replication.Converges` | internal/cluster/agent.go:444-536 | over every run whose served rules have a category, a full snapshot received without a failure makes the tables hash like it |
| `Replication.SyncedAnswerIff` | internal/api/api.go:878-968 | for any served rules: the answer after a clean sync is 304 exactly when each has a category and the node id matches |
| `Replication.ForeignIdIsNotQuiet` | internal/cluster/agent.go:468-472 | an agent that kept another node id holds the snapshot and is sent it again |
| `Replication.RunKeeps` | internal/cluster/agent.go:444-610 | over every run a known version is the hash of the tables, the reported pause, maintenance flag and settings version are those held, and later tables are unchanged or freshly inserted |
| `Replication.AgentStore.ApplySnapshot` | internal/store/cluster.go:397-433 | all rules and rewrites replaced under fresh ids, or nothing at all, whichever statement fails |
| `Replication.AgentStore.LocalConfigVersion` | internal/store/cluster.go:177-188 | the persisted version if its fingerprint still matches, else a recomputed one; every failing read or write |
| `Replication.AgentStore.RecordLocal` | internal/store/cluster.go:200-214 | the three writes, cut short anywhere |
| `Replication.AgentStore.InsertRules` | internal/store/cluster.go:411-420 | one INSERT per rule, an empty category stored as "custom" |
| `Replication.AgentStore.SetClusterForwarders` | internal/store/forwarders.go:196-209 | the forwarders blob replaced, or the write fails |
| `Replication.Agent.constructor` | internal/cluster/agent.go:141-172 | a start reads the settings version from the store, or takes "none" if it cannot |
| `Replication.Agent.LocalVersion` | internal/cluster/agent.go:432-442 | the version kept in memory, looked up once |
| `Replication.Agent.SyncOnce` | internal/cluster/agent.go:444-536 | the whole effect of a full snapshot on fields, store and what the node enforces, for every combination of failures |
| `KeyRotation.NeverLockedOut` | internal/cluster/agent.go:475-483 | with replies and writes lost at will and crashes before a key is saved, polls being served one at a time, the key an agent has stored authenticates, or is the previous one with the grace time gone |
| `KeyRotation.AcceptedIff` | internal/store/cluster.go:734-744 | the current key is accepted, the previous one only until the grace time is over |
| `KeyRotation.AtMostTwo` | internal/store/cluster.go:734-744 | at most two keys of a node authenticate at once |
| `KeyRotation.RetiredForGood` | internal/api/api.go:985-1025 | a key that stopped authenticating never does again |
| `KeyRotation.PollIssuesIff` | internal/api/api.go:985-1025 | which key a poll is handed and what the row is after it: a new key exactly if rotation is on, the key old enough and nothing fails (always on the grace key), the old one good for the grace time, and the previous one retired by a poll with the current key |
| `KeyRotation.RotationCompletes` | internal/api/api.go:976-1025 | an old key polled, replaced, saved and polled again is gone |
| `KeyRotation.LateRequestLocksOutIff` | internal/api/api.go:814-834 | whatever row its handler read, a request finished late drops a key the agent uses exactly when it rotates and the agent no longer uses the request's key, or it only retires the previous key and the agent still uses that |
| `KeyRotation.LateGraceLocksOut` | internal/api/api.go:1007-1024 | such a run with a request admitted on the grace key |
| `KeyRotation.LateCurrentLocksOut` | internal/api/api.go:985-1006 | such a run with a request admitted on the current key before the rotation and finished after it |
| `KeyRotation.FinishAtOnce` | internal/api/api.go:985-1025 | finished at once, a late request is the poll the runs serve |
| `KeyRotation.RunKeepsInv` | internal/api/api.go:985-1025 | every key the agent may use next is listed in its row |
| `KeyRotation.NodeRow.RotateNodeKey` | internal/store/cluster.go:553-564 | the row after a rotation |
| `KeyRotation.NodeRow.ConfirmKeyRotation` | internal/store/cluster.go:570-573 | the previous key retired |
| `KeyRotation.NodeRow.MaybeRotateNodeKey` | internal/api/api.go:985-1025 | the row and the reply of one poll, whichever statement fails |
| `ConfigVersion.HashLines` | internal/store/cluster.go:85-101 | through any flushes and buffer growth the hasher is fed exactly the sorted lines joined by newlines |
| `ConfigVersion.TextIsOrderFree` | internal/store/cluster.go:85-101 | the hash does not depend on the order of the lines |
| `ConfigVersion.SortedOrdered` | internal/store/cluster.go:86 | what sorting means here: ordered by bytes |
| `ConfigVersion.JoinInjective` | internal/store/cluster.go:378 | joined lines determine the lines, when none is empty or holds a newline |
| `ConfigVersion.ConfigVersionsForNodes` | internal/store/cluster.go:350-393 | each node's rows are filtered and it is given the version of the first node whose lines join alike |
| `ConfigVersion.VersionOne` | internal/store/cluster.go:369-391 | one turn of the memo |
| `ConfigVersion.BatchIsPerNodeIff` | internal/store/cluster.go:343-393 | with an injective digest the batch gives every node its own version exactly when no two nodes have lines that join alike and sort apart |
| `ConfigVersion.BatchIsPerNode` | internal/store/cluster.go:343-393 | which holds when no field of a rewrite and no forwarder line has a newline |
| `ConfigVersion.NewlineConfusesBatch` | internal/store/cluster.go:343-393 | three rewrites and two nodes for which the batch gives the second node the first one's version, although the comment promises never to |
| `ConfigVersion.RewriteLineIsLine` | internal/store/cluster.go:73-75 | a rewrite's line has no newline exactly when its fields have none |
| `ConfigVersion.FilterRewritesForNode` | internal/store/cluster.go:242-282 | one row per domain and type in key order: the first of highest rank among the rows that apply |
| `ConfigVersion.ServedUnique` | internal/store/cluster.go:242-282 | only one set of rows serves a node, so the filter is a function of rows and node |
| `ConfigVersion.BestIsTop` | internal/store/cluster.go:255-273 | the choice is an applying row of highest rank (an enabled one beats every disabled one, then the narrower scope) |
| `RewriteScopes.LineIdentifies` | internal/store/cluster.go:73-75 | what is hashed of a rewrite determines its domain, type, target and flag, if neither domain nor type holds the separator |
| `RewriteScopes.ChoiceIsNarrowest` | internal/store/cluster.go:233-273 | the row served is for the node and key, no such row beats it (enabled over disabled, then nodes over sites over everything), it is the first of those, and is served with its own target and flag and no scope |
| `ConfigVersion.ChoiceIsOrderFreeIff` | internal/store/cluster.go:255-273 | the choice does not depend on the order of the rows exactly when the rows of highest rank serve the same |
| `ConfigVersion.ServedSetIsOrderFree` | internal/store/cluster.go:242-282 | then neither does the whole served set |
| `Caches.CacheIsPlainMap` | internal/cache/cache.go:130-217 | in every interleaving a lookup is worth exactly what the latest stored reply for its key is worth, or misses if the key was evicted since; each shard stays within its cap |
| `Caches.GetAnswersLatest` | internal/cache/cache.go:130-166 | in every interleaving a Get answers what the reply that was the latest when it looked is worth at its own clock reading, and misses exactly if that was evicted, past its grace, or there was none |
| `Caches.DeleteSparesRefreshed` | internal/cache/cache.go:139-147 | the re-checked delete never removes an entry that can still be served |
| `Caches.JudgeIsHonest` | internal/cache/cache.go:139-165 | nothing is served past expiry + 30 s; a fresh hit's TTL is the whole seconds left and it asks for a refresh exactly in the last tenth of its time; a stale hit's is 30 and asks always |
| `Caches.TTLHonoursRecords` | internal/cache/cache.go:231-257 | a reply is kept no longer than any of its answers, or else any SOA minimum, allows, stretched by the configured minimum and cut by the maximum; answers of TTL 2^32 - 1 count as none |
| `Caches.TTLIsLeast` | internal/cache/cache.go:231-257 | a reply is kept for the least TTL of its answers, or without one below 2^32 - 1 for the least SOA minimum, within the configured bounds; without either not at all |
| `Caches.GreatestTTLIsIgnored` | internal/cache/cache.go:231-257 | such an answer is not cached, or kept for the minimum of the SOA beside it |
| `Caches.LeastIsLeast` | internal/cache/cache.go:231-250 | the minimum found is the least TTL below 2^32 - 1 |
| `Caches.RunKeepsInv` | internal/cache/cache.go:130-217 | each shard holds only its own keys' latest replies, within its cap, and a stored key is missing only if evicted or past its grace |
| `Caches.PutSize` | internal/cache/cache.go:186-196 | storing into a full shard evicts one entry first |
| `Caches.TTLFor` | internal/cache/cache.go:231-257 | the method computes that time |
| `Caches.AdjustTTL` | internal/cache/cache.go:259-271 | every record's TTL set, but an OPT record's left alone |
| `Caches.Cache.Get` | internal/cache/cache.go:130-166 | hit, stale hit, refresh-ahead, expiry and delete on the shard array |
| `Caches.Cache.DropExpired` | internal/cache/cache.go:139-147 | the delete under the write lock |
| `Caches.Cache.PickVictim` | internal/cache/cache.go:202-217 | of all entries, or of eight, one nearest expiry |
| `Caches.Cache.Set` | internal/cache/cache.go:177-197 | the reply stored with its expiry, or nothing |
| `Keyrings.KeyIsFreshIff` | internal/privacy/keyring.go:60-90 | dropping keys changes a client's pseudonym of a day exactly when the day is before the cutoff's |
| `Keyrings.Keyring.Key` | internal/privacy/keyring.go:60-73 | the day's key if held, else a new one |
| `Keyrings.Keyring.Pseudonym` | internal/privacy/keyring.go:53-57 | the client under the key of its query's day, drawn if missing |
| `Keyrings.Keyring.Prune` | internal/privacy/keyring.go:76-90 | the keys of earlier days forgotten |
| `DomainPromises.CanonicalEqualIff` | internal/privacy/domains.go:175-178 | two names are stored alike exactly if they are the same up to ASCII case and one trailing dot |
| `DomainPromises.KeptOnlyIfAsked` | internal/privacy/domains.go:65-85 | over every clean history a name is kept only if k devices each asked for that name (so compared), that day or the day before, in a query or in the store; its registered domain only if k devices each asked for a name under it |
| `DomainPromises.AskedIsKept` | internal/privacy/domains.go:51-85 | over every history, if k devices asked for a name on one day while its counts were in place and the tables had room, it is kept that day and the next |
| `DomainPromises.HistoryFrom` | internal/privacy/domains.go:51-139 | whatever was counted comes from such a query |
| `DomainTrackers.KeepIsAnonymous` | internal/privacy/domains.go:65-85 | over histories that draw no key for a day whose counts outlived theirs (and whose stored pseudonyms of a day are under one key) a name is stored only if k devices shared it that day or the day before, its registered domain only if k shared that; below the table cap exactly then |
| `DomainTrackers.CountedTwiceIff` | internal/privacy/scrub.go:136-140 | while a day's counts are in place, a device that asks for a name again counts twice exactly if the day's key was dropped since, or it was reported under another pseudonym |
| `DomainTrackers.LateQueryRevealsName` | internal/privacy/scrub.go:136-140 | a run with k = 2: hidden at noon, the name is stored after a late query past midnight, though one device alone asked for it |
| `DomainTrackers.CleanStaysKeyed` | internal/privacy/domains.go:51-139 | over such histories all that was counted for a day is under one key, the one held if there is one |
| `DomainTrackers.CommonMeansShared` | internal/privacy/domains.go:142-173 | a name is common only if k devices were counted, and exactly then while it is tracked or the table has room |
| `DomainTrackers.CommonNameCommonDomain` | internal/privacy/domains.go:134-167 | a common name has a common registered domain, even at the cap |
| `DomainTrackers.DecidedStays` | internal/privacy/scrub.go:94-97 | a decided name stays what it is in every later pass, whatever happens in between, while the threshold stays and the counts of its day and the day before are in place |
| `DomainTrackers.KeptNameStaysIff` | internal/privacy/scrub.go:94-97 | after any history, restarts included, a stored name is kept by a later pass exactly if k pseudonyms are found for it on the two days, in the counts or, where they are gone, in the stored log (below the table cap) |
| `DomainTrackers.RestartHidesKeptName` | internal/privacy/domains.go:98-122 | a run with k = 2 in which a restart makes the next pass hide a name it had kept |
| `DomainTrackers.OverlapHidesKeptName` | internal/privacy/scrub.go:136-140 | the same without a restart, past midnight |
| `DomainTrackers.KeepIsIdempotent` | internal/privacy/domains.go:65-85 | deciding a decided name again at once changes neither name nor counts |
| `DomainTrackers.CountsStayBounded` | internal/privacy/domains.go:142-167 | device lists stay shorter than k and without repeats, tables within the cap |
| `DomainTrackers.EveryHistory` | internal/privacy/domains.go:51-139 | the invariant over any history of queries, decisions, threshold changes, seeding, key draws, scrub passes and restarts |
| `DomainTrackers.DomainTracker.AddTo` | internal/privacy/domains.go:142-167 | one device recorded for one key |
| `DomainTrackers.DomainTracker.OpenDay` | internal/privacy/domains.go:100-122 | a day seeded from the store on first use |
| `DomainTrackers.DomainTracker.ObserveQuery` | internal/privacy/domains.go:51-63 | one query counted under the key its day has then |
| `DomainTrackers.DomainTracker.KeepName` | internal/privacy/domains.go:68-85 | the decision and the days it opens |
| `DomainTrackers.DomainTracker.PruneDays` | internal/privacy/domains.go:88-96 | earlier days forgotten |
| `DomainTrackers.DomainTracker.ForgetBefore` | internal/privacy/scrub.go:136-140 | a pass drops the keys before the cutoff's day and the counts before the day before it |
| `Scrubbing.ScrubIsSafe` | internal/privacy/scrub.go:56-148 | for a policy fixed since its first pass, positive timestamps, and storing within ten minutes of ingest: every row is what came in, or reduced from that: id and time unchanged, its name hidden or (rare-only) what the decisions made of the name it came in with, its client unchanged or at level 2 its pseudonym of that day; when a pass completes, every row it found that is past its window is so reduced, and from then on a row that is not is no older than ten minutes before the last cutoff, whatever recorded values could not be read |
| `Scrubbing.WindowKeepsDetail` | internal/privacy/privacy.go:40-84 | over every run with a detail window, a query within it is stored as it came in |
| `Scrubbing.PassCompletes` | internal/privacy/scrub.go:84-147 | a pass under way comes to its end slice by slice, and records its cutoff, level and strictness |
| `Scrubbing.PassBegins` | internal/privacy/scrub.go:64-80 | where a pass begins: at the oldest row or ten minutes before the last cutoff, and over all history if the policy got stricter as far as the recorded values can be read |
| `Scrubbing.PassKeepsRows` | internal/privacy/scrub.go:82-115 | below level 3 a pass keeps every row, those in its range reduced, the others as they were |
| `Scrubbing.IngestedIs` | internal/privacy/privacy.go:114-165 | what is stored of a query as it arrives |
| `Scrubbing.RunKeepsInv` | internal/privacy/scrub.go:56-148 | of the rows a pass found, those below its slices' end are reduced; rows stored since are reduced or no older than the overlap before its cutoff |
| `Scrubbing.SliceFits` | internal/privacy/scrub.go:82-84 | a slice moves forward, ends by the cutoff and lies within one UTC day |
| `Scrubbing.SweepsJoin` | internal/privacy/scrub.go:82-115 | adjacent slices tile their range |
| `Scrubbing.ReduceReduces` | internal/privacy/privacy.go:114-165 | reducing an entry, or one already reduced, leaves it reduced from the one that came in |
| `Scrubbing.OnlyCoarser` | internal/privacy/scrub.go:94-100 | any number of decisions makes of a name itself, its registered domain or "hidden" |
| `Scrubbing.RawsRecord` | internal/privacy/scrub.go:56-148 | the record the rows are compared with is the stored history and the queries as they came in |
| `Scrubbing.RedoReducesIff` | internal/privacy/scrub.go:66-84 | a pass over all history reduces the rows past their window exactly when no stored timestamp is zero or negative |
| `Scrubbing.SkippedForGood` | internal/privacy/scrub.go:66-84 | over every run of the same policy a row left behind is never touched again, unless a later pass cannot read its recorded values |
| `Scrubbing.StuckReducesNothing` | internal/privacy/scrub.go:76-82 | over every run, as long as a row with such a timestamp is stored no pass reduces anything |
| `Scrubbing.ZeroTimestampSkips` | internal/privacy/scrub.go:66-84 | a log of two rows, one at timestamp 0: the pass completes and leaves the other behind |
| `Scrubbing.NormalizedIs` | internal/privacy/privacy.go:50-59 | values in range stay, others go to the nearest bound, a threshold below 2 is none |
| `Scrubbing.NormalizedPolicy` | internal/privacy/privacy.go:50-78 | the bounds of a policy in force, and hiding every name as the strictest |
| `Scrubbing.Scrubber.ScrubSlice` | internal/privacy/scrub.go:83-113 | the statements of one slice reduce exactly its rows |
| `Scrubbing.Scrubber.Scrub` | internal/privacy/scrub.go:56-148 | a pass under any configured policy; an unreadable recorded value passes for 0 |
| `Scrubbing.Scrubber.ScrubOnce` | internal/privacy/scrub.go:62-147 | what a pass at levels 1 to 3 reduces and deletes and which values it leaves, wherever it fails |
| `Scrubbing.AnonymousPass` | internal/privacy/scrub.go:121-128 | at level 3 a completed pass over all history leaves past the cutoff only hidden queries the rollups have not counted, and every later query as it was |
| `Scrubbing.UncountedMeaning` | internal/store/privacy.go:74-86 | exactly the counted queries before the cutoff are deleted |
| `Relabelling.ContentLog.RelabelContent` | internal/store/categories.go:222-317 | the rows moved, their number, and every rollup count after it, under the cursor as it was read; or nothing, whichever statement fails |
| `Relabelling.ContentLog.MoveCategory` | internal/store/categories.go:260-298 | chunks of at most 500 together move what one statement would |
| `Relabelling.ContentLog.MoveChunk` | internal/store/categories.go:262-297 | the deltas change by exactly what the rows' fold changes by |
| `Relabelling.AddGroups` | internal/store/categories.go:270-289 | the groups' counts leave "other" and enter the category |
| `Relabelling.ApplyDeltas` | internal/store/categories.go:299-311 | every delta added to its rollup row |
| `Relabelling.GroupByCategory` | internal/store/categories.go:230-235 | every named id listed under its category and nothing else |
| `Relabelling.MoveShiftsFold` | internal/store/categories.go:270-297 | how an UPDATE of one chunk changes what the rollup counts from the rows |
| `RelabelMeaning.FoldCounts` | internal/store/categories.go:259-272 | what the rollup counts of the rows is their number in that hour, on that node, in that category, and the number of the blocked ones |
| `Relabelling.DifferenceKeptIff` | internal/store/categories.go:216-317 | with the true cursor, rollup minus rows is kept for every hour, node and category, but for an "other" count that is not positive, where it is kept exactly if the count is zero |
| `Relabelling.AllDifferencesKeptIff` | internal/store/categories.go:216-317 | it is kept for every key exactly when no moved row was folded in past the cursor as read (a failed read passes for 0) and each "other" count is positive or zero |
| `Relabelling.NoneMissedSame` | internal/store/categories.go:228 | without such a row the cursor as read does as well as the true one |
| `Relabelling.UnreadCursorMovesRowsOnly` | internal/store/categories.go:228 | for any row folded in: the cursor cannot be read, the commit succeeds, and the rollup still counts the row as "other" |
| `Relabelling.SoundIsKept` | internal/store/categories.go:299-315 | on a rollup that counts at least its rows the difference is always kept: the closing delete only removes zero counts |
| `Relabelling.TotalsAreKept` | internal/store/categories.go:216-317 | the total over the categories of every hour and node is unchanged |
| `CategoryNames.NormalizeIs` | internal/categories/index.go:103-108 | a name without the white space around it, a trailing dot and a leading "*.", in lower case |
| `CategoryNames.RankIs` | internal/categories/index.go:24-31 | a category's number is its place in the order of precedence, others have none |
| `CategoryIndex.Builder.Add` | internal/categories/index.go:24-31 | the pair recorded, or ignored if the category is unknown or the domain empty |
| `CategoryIndex.Builder.Build` | internal/categories/index.go:38-43 | the index holds exactly the pairs added |
| `CategoryIndex.Compact` | internal/categories/index.go:40 | no repeats and nothing lost |
| `CategoryIndex.BinarySearch` | internal/categories/index.go:73 | the first entry not below the key |
| `CategoryIndex.Index.LookupExact` | internal/categories/index.go:71-81 | the least category among the entries of that hash, 0 if none |
| `CategoryIndex.Index.Lookup` | internal/categories/index.go:56-68 | with no hash collision for the names tried, the answer is the map's |
| `CategoryIndex.ListedMeaning` | internal/categories/index.go:53-68 | the map's answer: the best category of the most specific listed suffix |
| `CategoryIndex.BestMeaning` | internal/categories/index.go:70-81 | the best category is one the domain is listed in, and none listed beats it |
| `CategoryIndex.LeastIsBest` | internal/categories/index.go:71-81 | without a collision the least entry is the best category |
| `CategoryIndex.BestIsASet` | internal/categories/index.go:24-43 | neither order nor repeats of the pairs matter |
| `CategoryIndex.CollisionAnswers` | internal/categories/index.go:71-101 | with a collision an unlisted domain is answered |
| `BuiltinTable.SentWalksAlike` | internal/categories/builtin.go:179-208 | for every table, blocked set and name the walk over the sent entries reaches a blocked category exactly when the walk over the whole table does, and then the same |
| `BuiltinTable.SentMeaning` | internal/categories/builtin.go:179-208 | sent are exactly the entries with a blocked one at or above them, with the categories they have |
| `BuiltinTable.SecondPassNeededIff` | internal/categories/builtin.go:191-206 | without the second loop the walks differ exactly for names whose most specific entry is unblocked under a blocked one |
| `BuiltinTable.BuiltinDomains` | internal/categories/builtin.go:184-208 | the two loops collect the blocked entries and those under one, in any map order |
| `BuiltinTable.Builtin` | internal/categories/builtin.go:164-177 | the most specific listed domain's category |
| `BuiltinTable.DecisionMeaning` | internal/resolver/resolver.go:262-288 | with nothing blocked nothing is; else the most specific correction for the name or a parent of it decides either way; else the database's category, if blocked |
| `BuiltinTable.StopMeaning` | internal/resolver/resolver.go:270-280 | a walk ends at the most specific listed domain up from the name |
| `BuiltinTable.BlockedCategory` | internal/resolver/resolver.go:266-288 | corrections first, then the database |
| `RateLimiting.RateLimiter.Allow` | internal/resolver/ratelimit.go:54-88 | the sharded, swept limiter decides as one counter per client, lost exactly if the shard no longer holds it though it still counts, which takes a time behind an earlier call's |
| `RateLimiting.Sweep` | internal/resolver/ratelimit.go:65-79 | a sweep of at most 256 entries in any order loses nothing that still counts |
| `RateLimiting.AtMostTwiceTheLimit` | internal/resolver/ratelimit.go:54-88 | at most 2 x limit calls of a client are admitted in any interval one window long, both ends included, if the times never run back, and at most 3 x limit if they do by up to 15 s |
| `RateLimiting.BackwardsAdmitsMore` | internal/resolver/ratelimit.go:58-60 | ten calls whose times run back by 2 ns: seven admitted in one such interval under a limit of 3 |
| `RateLimiting.WindowIsExact` | internal/resolver/ratelimit.go:54-88 | while times do not run back a window admits exactly as many as its counter says, never more than the limit |
| `RateLimiting.RunIsBounded` | internal/resolver/ratelimit.go:54-88 | the counting argument for any interval |
| `LogShipping.Buffer.constructor` | internal/logbuf/logbuf.go:51-56 | an empty ring of at least one entry |
| `LogShipping.Buffer.Append` | internal/logbuf/logbuf.go:59-64 | the next sequence number, and the ring then holds the last lines |
| `LogShipping.Buffer.AppendEntry` | internal/logbuf/logbuf.go:69-75 | the same for a shipped line |
| `LogShipping.Buffer.Put` | internal/logbuf/logbuf.go:78-86 | the ring holds exactly the last min(capacity, n) entries after every put |
| `LogShipping.Buffer.All` | internal/logbuf/logbuf.go:103-111 | those entries, oldest first |
| `LogShipping.Buffer.Since` | internal/logbuf/logbuf.go:89-100 | the first so many of them above a number |
| `LogShipping.OfferedAreConsecutive` | internal/logbuf/logbuf.go:89-100 | the lines offered to a batch are consecutive, from after the cursor or the oldest kept |
| `LogShipping.TruncateTwice` | internal/logbuf/logbuf.go:24-29 | truncating at ingest what was truncated at capture changes nothing |
| `LogShipping.FitBatch` | internal/cluster/agent.go:322-330 | the longest prefix within the budget of unencoded bytes, never an empty one |
| `LogWire.BatchAcceptedIff` | internal/cluster/agent.go:322-332 | the encoded body of a fitting batch is within the control plane's 1 MiB exactly if the escapes leave room: always if they add less than half of it, and for any single line |
| `LogWire.AcceptedIff` | internal/api/logs.go:135 | the size of a body: frame, messages and the growth by escapes |
| `LogWire.RefusedIsLost` | internal/cluster/agent.go:348-355 | over every run, lines of a batch heard to be refused that were sent in no other are never ingested |
| `LogWire.OversizedBatchIsLost` | internal/cluster/agent.go:32-35 | 22 to 63 full lines of markup fit the budget, cannot be taken and are lost |
| `LogDecode.ReadBack` | internal/cluster/agent.go:332 | the control plane reads back the very message the agent encoded, quotes, control bytes and markup included |
| `LogDecode.EscapedIsHarmless` | internal/cluster/agent.go:332 | no byte of an encoded message ends its string early or is markup |
| `LogDecode.DigitsReadBack` | internal/cluster/agent.go:332 | a number's digits are read back as that number |
| `LogShipping.FitIsUnique` | internal/cluster/agent.go:322-330 | no other prefix meets that, so the batch is determined |
| `LogShipping.Shipper.NextBatch` | internal/cluster/agent.go:314-331 | empty exactly when nothing after the cursor is kept, else the longest fitting prefix of the consecutive lines there |
| `LogShipping.Shipper.Answered` | internal/cluster/agent.go:345-359 | 200, 404, 400 and 413 advance the cursor, anything else does not |
| `LogShipping.NodeProcLog.Ingest` | internal/api/logs.go:49-77 | the lines appended to the node's ring and the dedupe cursor after a batch |
| `LogShipping.ServedIsIngested` | internal/api/logs.go:49-77 | over every run of lost answers, re-sent and late batches and restarts: when the request the agent waits on is served, every line of it has been ingested |
| `LogShipping.AtMostOnceInOrder` | internal/api/logs.go:49-77 | over every run without a late batch of an earlier start: each line at most once, in its order |
| `LogShipping.IngestKeepsOrderIff` | internal/api/logs.go:61-73 | an ingest keeps that exactly when the batch is of the start last heard of or begins after all ingested of its own |
| `LogShipping.LateBatchIsTakenAgain` | internal/api/logs.go:61-64 | a run in which a line is ingested twice |
| `LogShipping.RunKeepsInv` | internal/cluster/agent.go:314-360 | from the start of the agent's latest batch up to the last number taken every line of its present start was ingested, and every batch in flight holds consecutive lines |

## Left out

- The wire: sockets, TLS, DoH, HTTP, packing of DNS messages; messages are values and network events are inputs.
- The retry loop of `pipePool.exchange` and keep-warm dials (internal/resolver/pipeline.go:109-141, 294-298): they only call the modelled sections again.
- Connection objects of the pool: the class keeps their loads and flags in maps keyed by connection, not as linked objects, so aliasing between pool and callers is not modelled.
- The shard locks of cache, coalescing and limiter: a shard is a function of the key, and each locked section is one step.
- A panic inside the function run by `Do` (internal/resolver/singleflight.go:59-82): the leader would never publish.
- NormalizeUpstreamStrategy, NormalizeUpstreamTimeoutMs and NormalizeUpstreams (internal/resolver/forward.go:39-65): single-branch defaults.
- Hash collisions: config, settings and forwarder digests are represented by what they hash; FNV and SHA-256 are parameters elsewhere.
- The agent's in-memory rule filter (`reload`, internal/cluster/agent.go:529-531): its error is ignored by the program and the filter is not modelled.
- The control plane's config-version cache (internal/store/configcache.go): the version compared for a 304 is taken to be that of the configuration served then, or unreadable.
- Columns of replicated rows that are not hashed (update times, list ids, source and external id).
- A control plane that predates 304, and re-enrollment after a rejected key (internal/cluster/agent.go:572-592).
- Manual key renewal and enrollment (internal/api/api.go:1329): they may drop a grace key the agent still holds.
- `filterForwardersForNode` (internal/store/cluster.go:305-331): the same loop over enabled entries with a one-field key.
- ConfigVersionsForNodes: takes the rule lines and a node's forwarder lines ready-made; sorting is a function, not in place.
- ruleLine and forwardLine: only the rewrite line is spelled out, the other two are joined the same way.
- Rounding of the remaining seconds through a float in `Get` (internal/cache/cache.go:158): whole seconds are taken by integer division.
- The SOA record's own TTL: the code uses only its minimum field, unlike section 5 of RFC 2308, and so does the model.
- NotModifiedIsSafe: speaks of agents that report a settings version; one that predates it is never refused a 304 over settings.
- KeptOnlyIfAsked: assumes a clean history, as KeepIsAnonymous does.
- KeepIsAnonymous: assumes that no key is drawn for a day whose counts outlived theirs, because with one it is false (`LateQueryRevealsName`).
- KeepIsIdempotent: only for a second decision at once, because later it is false (`KeptNameStaysIff`).
- FitBatch: counts unencoded bytes, as the code does; for the encoded body see `BatchAcceptedIff`.
- WindowIsExact: assumes that times do not run back; `AtMostTwiceTheLimit` says what holds if they do.
- AtMostOnceInOrder: assumes no late batch of an earlier start, because with one it is false (`LateBatchIsTakenAgain`).
- ScrubIsSafe: assumes positive timestamps, because without them it is false (`ZeroTimestampSkips`).
- The client rollup (internal/privacy/scrub.go:115-120, 129-131): rekeyed at level 2, deleted at level 3.
- Runs of passes at level 3: `ScrubIsSafe` is for levels 1 and 2, a single pass is modelled at every level.
- Persisting the day keys (internal/privacy/keyring.go:93-124): a restart reads back any of the keys ever drawn, or none.
- Pseudonyms are cut to 40 bits: two clients of one day that share one are not modelled.
- Retention deletes while a scrub runs, and entries ingested under an earlier policy once the first pass began.
- SQLite's case-insensitive LIKE for the pseudonym prefix: the prefix is compared exactly.
- NeverLockedOut: assumes one poll of a node at a time; several handlers of one node at once are covered one late request at a time (`LateRequestLocksOutIff`).
- A failed seeding of a day's domain counts is a shorter list of stored pairs.
- The rollup advance that fills the counts relabelling corrects (internal/store/rollup.go): `SoundIsKept` takes a rollup that counts at least its rows.
- Non-ASCII letters and spaces in the normalisation of names, in the category index and the domain tracker; Counts and Len.
- `DomainsFor` (internal/classifier/categorizer.go:248): overrides and database entries at other depths make full agreement of agent and control plane false in general.
- The trimming and lower-casing in `Builtin`: names come normalised, as the resolver passes them, and the table has no empty domain.
- Sequence numbers that wrap at 2^64, and invalid UTF-8 replaced while a log line is encoded.
- Restarts of the control plane and deleted nodes in log shipping: both start an empty ring.
- GET /api/logs, log levels and the slog handler.
- Authentication, OIDC, MFA, settings editing, lookups to outside services, metrics, the web interface and the demo tool.
