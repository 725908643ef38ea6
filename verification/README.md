# Verification of the BYON state machines

A Dafny 4.11 model of the parts of this repository that decide what is remembered, committed, retried,
delivered and ranked, with proofs about whole runs of them.

`dafny verify dfyconfig.toml` checks everything.

## What is modelled

| files | part of the system |
|---|---|
| `CortexSpec`, `CortexStore`, `CortexTheorems`, `CortexAccounts` | the persistent addressable memory: ingest, sleep, clear; its Z accounts and plastic prior |
| `SessionLedger`, `Arithmetic` | the session ledger that answers queries, and how it agrees with the persistent memory |
| `HashChain` | the temporal ledger: load, append and verify |
| `Evidence`, `Rounding` | the semantic classifier of two claims |
| `LifecycleSpec`, `Lifecycle`, `LifecycleTheorems`, `LifecycleJudgement`, `Journal`, `Options` | the candidate-to-commit lifecycle and its replayed ledger |
| `Pressure`, `PressureTheorems`, `ResearchTasks`, `LifeLoopSpec`, `LifeLoop`, `LifeLoopTheorems`, `LifeLoopDrain`, `LifeLoopOperator`, `LifeLoopCounts` | pressure accounts, research task queue, ticks and bounded draining |
| `Text`, `Expression` | delivery rewriting under learned style preferences |
| `Integration`, `Sequences` | worklist reachability and the wiring verdict |
| `Router`, `StableSort` | trust-tier re-ranking |

The shape is the same throughout. What an operation does is a function on values (`CortexSpec.Step`, `LifecycleSpec.Do`,
`LifeLoopSpec.Do`, ...). Code that changes things in place is a class or a method with the loops of the original, proved
to leave exactly the state that function gives. Everything about runs is then a lemma about the functions, by induction
over the run.

How the original's terms are read:

- Floats are reals. Pressures are integer thousandths and quality scores integer thousandths, the grid the code rounds
  both to. Confidences and task priorities keep `round(x, 3)`, rates `round(x, 4)`, with ties to even.
- Thresholds are the defaults: commit evidence 2, dispute contradictions 1, stale after 14 days, quality 0.70, two
  independent web sources, challenger evidence M = 2, relief 2.0, decay 0.5 an hour. The life loop's consolidation
  interval and pressure threshold, the task limit of a tick and the number of sleep cycles are arbitrary.
- `%` on values and relation targets is Python's, which for a positive modulus is Dafny's.
- The clock, what a task run returns, whether FCE-M consolidation succeeds, the resolve gates and contributions of the
  neural pass, the hash and the JSON reader of the temporal ledger, the tokeniser and word lists, the canonical
  constraints, and every regular expression are parameters, arbitrary unless a lemma says what it needs of them.
- A source key is its class, its task and the multiset of its sources, which the original sorts and joins into a string.
- The memory strength of an event is its decimal text, as it is written to the file and hashed.
- Random ids are replaced by ids not in use. A dictionary is its insertion order and a map; an existing key keeps its place.
- `sorted` with a key is the stable descending sort of `StableSort`, proved to be the only one.
- The tensors cloned at the start of ingest and sleep are one value, `CortexStore.Clones`, updated buffer by buffer in the
  order of the code and copied back into the arrays of `CortexMemory` at the end.

Where the code and its comments differ the model follows the code, and a lemma says by how much:

- gateway/candidate_lifecycle.py:324 calls consolidation the only path that moves state. Marking false, archiving, approving
  and reviving move an existing record too; ingest moves none (`StatusMovesExactly`, for every operation).
- gateway/candidate_lifecycle.py:6 speaks of independent evidence. Revival adds evidence without a source
  (`EvidenceIsAccountedFor`), and so a commit can rest on one source key: exactly when `FewSourcesCommitExactly` says, and on
  every input of `RevivedClaimCommits`.
- gateway/candidate_lifecycle.py:14 asks web commits for independent sources. The source key holds the task as well, so two
  tasks that found one list of sources are enough: `WebCommitsExactly` and `SingleListCommitsExactly` say when a web record is
  committed, on many lists and on one, and `OneListCommits` gives the input.
- gateway/candidate_lifecycle.py:99 makes quality a condition of a commit. At the default thresholds it never decides one
  (`CommitsExactlyWhenReady`).
- gateway/lifeloop.py:401 stops a topic on repeated failure. A run that ends UNKNOWN closes its task as done, yet counts as a
  failure of the topic (`FailsAreFruitlessRuns`), so an execution blocks its task by an error exactly if any earlier execution of
  the topic was fruitless (`ErrorBlocksExactly`), the first error included (`OneErrorCanBlock`). At most two errors, not exactly
  two, and one more for each time the operator handles a task of the topic (`FailureIsBounded`), a bound that is reached
  (`BoundIsReached`).
- gateway/pressure.py:159 lets pressure fade with time. The time since a topic was last seen is taken off anew at every tick, so
  pressure fades by the tick and not by the hour (`FadingCompounds`, with numbers in `FadesByTheTick`).
- gateway/query_router.py:22-24 lets canonical and project facts always outrank external-LLM and model-prior packets. With
  similarities in [0, 1] they do not (`AcquiredCanOutrank`): among hits of one source a tier decides alone only between
  the two ends of the scale (`TierAloneDecides`), and between any two kinds of hit exactly when `AboveExactly` says.

## The main results

- **Sleep-gated arbitration** (`CortexTheorems.SleepArbitratesTrailingRun`): between two sleeps nothing moves a known value, and
  the second sleep replaces it exactly when the trailing run of equal reliable writes is against it and at least M long.
- **Batch boundaries are invisible** (`CortexTheorems.IngestAllIsOneIngest`): any number of ingest calls is one, although each
  call clamps the plastic prior.
- **Both reports are receipts** (`CortexTheorems.IngestReportIsReceipt`, `SleepReportIsReceipt`), and Z is conserved through any
  life and any forward pass (`CortexTheorems.ConservationLossIsZero`).
- **Answers are grounded** (`SessionLedger.QueriesAreGrounded`, `StepsAreAnswered`) and row by row independent
  (`SessionLedger.Forward`); **the two memories agree** (`SessionLedger.SessionAgreesWithIngest`), and each of its conditions is
  needed (`LeaningSeparates`, `RangeSeparates`, `CommitmentSeparates`).
- **The last digest pins the ledger** (`HashChain.LastDigestPinsLedger`): the two agree except in event ids, or they exhibit a
  collision. Nothing is supposed of the hash. What is written is what is loaded (`RestartKeepsLedger`).
- **Words decide**: which relation two claims get (`Evidence.RelationsExactly`), and that conflicting words end with both sides
  disputed, agreeing ones as evidence (`LifecycleJudgement.ConflictingWordsDispute`, `AgreementIsEvidence`).
- **Restarts are transparent** (`LifecycleTheorems.RestartsAreTransparent`), **commits are safe** (`CommitsAreSafe`,
  `ContradictedNeverCommits`), happen exactly when ready (`CommitsExactlyWhenReady`), and on how much evidence is exact
  (`FewSourcesCommitExactly`).
- **The log explains the tasks** (`LifeLoopTheorems.LogExplainsTasks`), with the exact condition for an error to block a topic
  (`LifeLoopTheorems.ErrorBlocksExactly`).
- **A drain takes the best, and as many as it may** (`LifeLoopDrain.DrainTakesTheBest`, `DrainTakesAsMany`).
- **Failure is bounded by attention** (`LifeLoopOperator.FailureIsBounded`): two errors a topic, and one for each handling by the
  operator; left alone, two (`AutonomousFailureIsBounded`).
- **Relief is exact and greedy-optimal** (`Pressure.ReliefIsExact`, `Pressure.ReliefTouchesFewest`).
- **Delivery loses no truth line, invents nothing, and drops only what was learned** (`Expression.Apply` with `DeliveryKeepsTruth`,
  `UnmatchedAreShown`, `ShownComesFrom`).
- **Reachability is sound, complete and terminating** (`Integration.Reachable`).
- **Ranking** is a stable permutation that keeps trusted facts before vault claims (`Router.TrustedBeforeVault`), with the exact
  condition for one kind of hit always to precede another (`Router.AboveExactly`).

## Model

| member | source | states |
|---|---|---|
| CortexStore.CortexMemory.constructor | dcortex/v99_source.py:1110-1127 | fresh, unshared buffers that start as a cleared memory |
| CortexStore.CortexMemory.Clear | dcortex/v99_source.py:2418-2434 | resets every persistent buffer: nothing known, relations the identity, trust neutral, Z and prior zero |
| CortexStore.CortexMemory.Clone | dcortex/v99_source.py:2013-2025 | the clones hold what the buffers hold |
| CortexStore.CortexMemory.CopyBack | dcortex/v99_source.py:2103-2115 | all thirteen buffers hold what the clones hold, none mixed up |
| CortexStore.CortexMemory.Ingest | dcortex/v99_source.py:2003-2116 | one call over a batch leaves the buffers as `CortexSpec.Ingest` says, and returns its five counters and the number of keys then known |
| CortexStore.CortexMemory.Sleep | dcortex/v99_source.py:2119-2183 | sleep leaves the buffers as `CortexSpec.Sleep` says, at least one cycle included, and returns its report |
| CortexStore.Resist | dcortex/v99_source.py:2058-2066 | a write against a committed value only adds to, or restarts, the challenge |
| CortexStore.Displace | dcortex/v99_source.py:2074-2081 | the current value moves to the archive, and its confirmations are forgotten |
| CortexStore.Record | dcortex/v99_source.py:2082-2088 | the value is stored as known, confirmed once more if it stood, and any challenge dropped |
| CortexStore.Overwrite | dcortex/v99_source.py:2071-2095 | last write wins: a differing value is displaced first, the new one recorded, with its tension |
| CortexStore.Write | dcortex/v99_source.py:2056-2097 | a reliable write changes one key, its tension, bias and counters, and no other key |
| CortexStore.Route | dcortex/v99_source.py:2048-2055 | a reliable relation sets one route, taken modulo the number of keys |
| CortexStore.Alarm | dcortex/v99_source.py:2038-2047 | flips and conflicts are felt as tension whether reliable or not; only a trusting flip moves trust |
| CortexStore.Observe | dcortex/v99_source.py:2030-2097 | the body of the double loop is one step of the memory, for any event |
| CortexStore.ObserveRow | dcortex/v99_source.py:2029-2097 | one row is the run of its events after those before it |
| CortexStore.ObserveAll | dcortex/v99_source.py:2028-2097 | the double loop is one run over the rows end to end, and the counters are those of that run |
| CortexStore.IngestClones | dcortex/v99_source.py:2013-2101 | trust clamped first, then the double loop, then the prior clamped with its diagonal zeroed |
| CortexStore.CountKnown | dcortex/v99_source.py:2116 | counts the known keys |
| CortexStore.SettleKeys | dcortex/v99_source.py:2139-2153 | every key is settled once, with the number of commits and of retrogrades |
| CortexStore.SettleKey | dcortex/v99_source.py:2139-2153 | arbitration and commitment of one key, no other key touched, and whether it was committed and replaced |
| CortexStore.SleepClones | dcortex/v99_source.py:2128-2183 | every key settled, every Z cycle run, the prior faded and clamped, and the report of it |
| CortexTheorems.LiveKeepsOk | dcortex/v99_source.py:2027-2101 | every run of clear, ingest and sleep keeps: committed and archived keys are known, a pending challenger stands against a committed value and differs from it, all indices in range, Z conserved, the prior bounded with a zero diagonal |
| CortexTheorems.ReachableIsOk | dcortex/v99_source.py:2418-2434 | the same of every state reachable from a cleared memory |
| CortexTheorems.RunKeepsWakingOk | dcortex/v99_source.py:2030-2097 | the invariant inside a call, before the prior is clamped |
| CortexTheorems.IngestKeepsOk | dcortex/v99_source.py:2003-2116 | one ingest call keeps the invariant |
| CortexTheorems.SleepKeepsOk | dcortex/v99_source.py:2119-2183 | one sleep keeps the invariant |
| CortexTheorems.BatchBoundariesInvisible | dcortex/v99_source.py:2011-2115 | ingesting x then y is ingesting x followed by y, per-call clamp of the prior included |
| CortexTheorems.RunSettles | dcortex/v99_source.py:2054-2101 | two runs whose priors clamp alike still clamp alike afterwards, since ingest only adds to the prior |
| CortexTheorems.IngestAllIsOneIngest | dcortex/v99_source.py:2011-2115 | any number of ingest calls is one call on all their rows |
| CortexTheorems.TrustAfterRun | dcortex/v99_source.py:2036-2039 | a source is trusted after a run iff it was before or some flip of it carried the trusting hint |
| CortexTheorems.ReliableAtIsReliable | dcortex/v99_source.py:2036-2039 | when an event counts as reliable, read off the events before it |
| CortexTheorems.TrailingRunIsMaximal | dcortex/v99_source.py:2058-2065 | the trailing run is the longest suffix of equal values |
| CortexTheorems.WakingOnlyChallenges | dcortex/v99_source.py:2056-2088 | while awake a committed key keeps value and archive, and its challenge is exactly the trailing run against it |
| CortexTheorems.SleepArbitratesTrailingRun | dcortex/v99_source.py:2056-2153 | the next sleep changes a known value iff the trailing run of reliable writes is against it and at least M long; then the old value is archived, else value and archive are as before |
| CortexTheorems.WakingNeverOverwritesCommitted | dcortex/v99_source.py:2058-2070 | no number of ingest calls changes a committed value, its archive or its commitment |
| CortexTheorems.SecondSleepIsIdle | dcortex/v99_source.py:2139-2153 | a second sleep straight after a first changes no addressable field and no trust |
| CortexTheorems.UncommittedHoldsLastWrite | dcortex/v99_source.py:2071-2089 | a key first learned in a run holds its last reliable write, confirmed as often as that write was repeated at the end |
| CortexTheorems.IngestReportIsReceipt | dcortex/v99_source.py:2027-2116 | the five reported counters determine the tension deposited in five registers, channel by channel, and the four strengthened biases up to the clamp |
| CortexTheorems.RunIsReported | dcortex/v99_source.py:2027-2097 | the same inside a call, before the clamp |
| CortexTheorems.CyclesClosedForm | dcortex/v99_source.py:2164-2168 | c cycles leave active * 0.65^c, and what left went to resolved and archived 65 : 35 with the total untouched |
| CortexTheorems.SleepReportIsReceipt | dcortex/v99_source.py:2162-2183 | commits are the keys committed afterwards, retrogrades the keys whose value the sleep changed, and the reported reduction is the share 1 - 0.65^c of the active tension, found in the resolved and archived sums 65 : 35 |
| CortexTheorems.ForwardConserves | dcortex/v99_source.py:1248-1265 | one forward step conserves an account, resolves no more than is active, and archives 15% of what it resolves, 85% on an archive query |
| CortexTheorems.ConservationLossIsZero | dcortex/v99_source.py:1770-1773 | after any life and any forward pass every register has total = active + resolved + archived, no part negative |
| CortexAccounts.RelationHoldsLatest | dcortex/v99_source.py:2048-2051 | every key, committed or not, leads where its latest reliable relation says, else where it led |
| CortexAccounts.ConfirmationsCount | dcortex/v99_source.py:2058-2088 | a committed value is confirmed once by each reliable write that repeats it, and by nothing else |
| CortexAccounts.SleepCommits | dcortex/v99_source.py:2139-2153 | a sleep commits exactly the known keys and clears every challenge; a replaced value starts with its challenger's count, any other keeps its own |
| CortexAccounts.ReportCounts | dcortex/v99_source.py:2027-2116 | each of the five counters is a count of events: conflicts announced, reliable relations, reliable writes against a committed value, all other reliable writes, and those that displace another value |
| CortexAccounts.FlipsAndCorrectionsCharge | dcortex/v99_source.py:2038-2041 | provenance is charged for each source flip, state for each reliable correction stored |
| CortexAccounts.OtherBiasesStay | dcortex/v99_source.py:2054-2097 | no event touches any bias but the four |
| CortexAccounts.SleepsFadeBias | dcortex/v99_source.py:2171-2173 | after n sleeps 0.92^n of every bias is left |
| CortexAccounts.BoundsClamp | dcortex/v99_source.py:2020-2100 | trust and bias outside their bounds count as the nearer bound |
| CortexAccounts.ClearedKnowsNothing | dcortex/v99_source.py:2418-2434 | whatever went before, after a clear nothing is known, committed or led elsewhere, trust is neutral, and no register or bias holds anything |
| SessionLedger.Session.constructor | dcortex/v99_source.py:1391-1409 | a session seeds one row per batch row from the persistent memory, and fixes trust |
| SessionLedger.Session.Update | dcortex/v99_source.py:1470-1517 | the masked updates of one row are one step of the ledger, and touch no other row |
| SessionLedger.Session.Read | dcortex/v99_source.py:1519-1574 | the chain of overrides yields the decision and action the ledger state calls for, UNKNOWN included |
| SessionLedger.Session.ReadSymbols | dcortex/v99_source.py:1576-1606 | the seven register symbols of one row, read off the same state |
| SessionLedger.Session.Advance | dcortex/v99_source.py:1422-1606 | a time step advances every row and puts out its decision, action and register symbols, each row by itself |
| SessionLedger.Serve | dcortex/v99_source.py:1422-1616 | every output of the time loop is that of its row's events so far |
| SessionLedger.Forward | dcortex/v99_source.py:1360-1616 | each row is answered, with its symbols, as if it were alone, from the persistent memory |
| SessionLedger.RowHoldsLatest | dcortex/v99_source.py:1487-1517 | an entry holds the latest reliable write and relation of its key, else what was persistent |
| SessionLedger.RowSeesConflicts | dcortex/v99_source.py:1481-1485 | the conflict mark of a key is set iff the row announced a conflict or rule flip on it |
| SessionLedger.QueriesAreGrounded | dcortex/v99_source.py:1519-1574 | a query is answered with the latest earlier reliable write to its grounding key, else the persistent value if known, and committed to iff the query is trusted or no conflict on its key came earlier; else UNKNOWN with inhibition |
| SessionLedger.StepsAreAnswered | dcortex/v99_source.py:1519-1574 | every other step is answered from the row's own events, itself included: a relation with the value of the related key, a correction with what it announces, trusted or not, anything else with the value of its key; untrusted conflicts and rule flips are inhibited |
| SessionLedger.SymbolsReveal | dcortex/v99_source.py:1576-1606 | at every step the working, archive and relation symbols read back into key and content, 0 iff there is none; provenance names the trusted source; conflict and pressure are read off the row's events, state off the event |
| SessionLedger.ArchiveHoldsDisplaced | dcortex/v99_source.py:1509-1517 | an entry recalls the value last displaced by a different one |
| SessionLedger.ArchiveQueriesRecallDisplaced | dcortex/v99_source.py:1534-1574 | an archive query recalls the value last displaced, else the persistent archive, else the only value ever held, else UNKNOWN |
| SessionLedger.LedgerAgreesWithStore | dcortex/v99_source.py:1391-1517 | over one row of in-range events in which nothing leans on a raised trust, ledger and store agree at every key not committed |
| SessionLedger.SessionAgreesWithIngest | dcortex/v99_source.py:2003-2116 | the same for what an ingest call leaves behind |
| SessionLedger.LeaningSeparates | dcortex/v99_source.py:2036-2039 | the first write or relation that leans on a raised trust leaves ledger and store agreeing iff it repeats what the ledger holds |
| SessionLedger.RangeSeparates | dcortex/v99_source.py:1487-1517 | one trusted write or relation of any value keeps them in agreement iff clamping and wrapping store it alike |
| SessionLedger.OutOfRangeSeparates | dcortex/v99_source.py:2057 | the value just above the range is stored as 0 by the one, as the top value by the other |
| SessionLedger.RaisedTrustSeparates | dcortex/v99_source.py:2036-2039 | a flip that raises trust lets the store, not the ledger, take the next hintless observation |
| SessionLedger.CommitmentSeparates | dcortex/v99_source.py:2058-2070 | on a committed key the store resists a differing trusted write, the ledger takes it |
| HashChain.TemporalLedger.constructor | dcortex/v99_source.py:4654-4670 | the ledger starts as the non-blank lines of its file, parsed, the unreadable ones kept in place |
| HashChain.LoadsLineByLine | dcortex/v99_source.py:4658-4670 | one entry for each non-blank line, in file order, each what the reader makes of it |
| HashChain.LoadingUndoesWriting | dcortex/v99_source.py:4658-4694 | loading the lines of any writer that reads back gives the ledger that was written |
| HashChain.RestartKeepsLedger | dcortex/v99_source.py:4658-4694 | so a built ledger still verifies after a restart, ends in the same digest, and is appended to as before |
| HashChain.TemporalLedger.Append | dcortex/v99_source.py:4676-4694 | adds one event linked to the last digest, sealed with its own and named by tick and digest, and keeps a verifying ledger verifying |
| HashChain.IdNamesTickAndDigest | dcortex/v99_source.py:4690 | an event id reads back to its tick, and two ids are equal iff tick and first sixteen characters of the digest are |
| HashChain.TemporalLedger.Verify | dcortex/v99_source.py:4696-4717 | passes iff every event is linked and sealed; else names the first broken one and why |
| HashChain.UnreadableLineIsCaught | dcortex/v99_source.py:4660-4717 | a file with a line that does not parse never verifies |
| HashChain.CorruptEndsInCorrupt | dcortex/v99_source.py:4669-4674 | after an unreadable line the last digest is CORRUPT |
| HashChain.BuiltLedgersVerify | dcortex/v99_source.py:4676-4717 | every ledger built by append from empty verifies |
| HashChain.LastDigestPinsLedger | dcortex/v99_source.py:4696-4717 | under any hash two verifying ledgers with the same last digest agree in length and in every field but the event id, or hold two payloads that collide or one that hashes to the genesis marker |
| HashChain.EventIdIsUnprotected | dcortex/v99_source.py:4703-4706 | any event id can be rewritten without verification noticing |
| HashChain.TruncationChangesLastDigest | dcortex/v99_source.py:4672-4674 | a truncated ledger verifies, but never with the same last digest, unless the ledger holds such payloads |
| Evidence.JaccardIsSymmetric | gateway/evidence_semantics.py:55-58 | overlap does not depend on the order of the claims |
| Evidence.PolarityConflictIsSymmetric | gateway/evidence_semantics.py:151-160 | nor does conflict of polarity, antonym or value |
| Evidence.SubsetIsCertain | gateway/evidence_semantics.py:130-135 | a subset verdict always has confidence 1 |
| Evidence.ClassifyIsEquivariant | gateway/evidence_semantics.py:95-148 | swapping claims and contexts exchanges NARROWS and BROADENS and changes nothing else |
| Evidence.LinkingConfidenceFloor | gateway/evidence_semantics.py:103-148 | every verdict but UNRELATED has confidence at least 0.5 |
| Evidence.RelationsExactly | gateway/evidence_semantics.py:95-148 | which of the relations a pair gets, as iffs over the words, word lists and shared words of the two claims |
| Evidence.PolarityIsDisagreement | gateway/evidence_semantics.py:62-160 | a conflict of polarity is a negation on one side only, different members of one antonym group, or different values on a shared subject |
| Evidence.JaccardIsOverlap | gateway/evidence_semantics.py:55-58 | a ratio of at least n thousandths is that many thousandths of all words shared |
| Evidence.ConfidenceFits | gateway/evidence_semantics.py:95-148 | how sure each relation is, by rule or by how much is shared |
| Journal.ReplayIsSound | gateway/candidate_lifecycle.py:155-164 | replaying a ledger, last record of each id winning, lists every id once |
| Journal.LastRecordWins | gateway/candidate_lifecycle.py:155-174 | a replayed ledger holds exactly the ids it mentions, each with the record of its last line, in the order of their first lines |
| Lifecycle.CandidateLifecycle.constructor | gateway/candidate_lifecycle.py:139-164 | a new object holds its ledger, replayed, and its disputes file |
| Lifecycle.CandidateLifecycle.Save | gateway/candidate_lifecycle.py:166-174 | a save reaches the dictionary and the end of the ledger |
| Lifecycle.CandidateLifecycle.FindActive | gateway/candidate_lifecycle.py:188-190 | the active candidates of a topic, in dictionary order |
| Lifecycle.CandidateLifecycle.Select | gateway/candidate_lifecycle.py:225-231 | those standing in one kind of relation to the finding, in order |
| Lifecycle.CandidateLifecycle.Weigh | gateway/candidate_lifecycle.py:218-267 | conflict before a disputed report before merging before linking before a fresh candidate |
| Lifecycle.CandidateLifecycle.FileChallenger | gateway/candidate_lifecycle.py:235-251 | files a disputed challenger, then counts and links it at the incumbent, whose claim stays, and writes the dispute line |
| Lifecycle.CandidateLifecycle.WriteDispute | gateway/candidate_lifecycle.py:293-314 | one dispute line: both parties, the heads of their claims, their classes, and the next step by conflict and class |
| Lifecycle.CandidateLifecycle.MergeEvidence | gateway/candidate_lifecycle.py:198-212 | a new source key adds evidence, sources, event ids, confidence and web sources; a known one only refreshes the relation |
| Lifecycle.CandidateLifecycle.LinkBack | gateway/candidate_lifecycle.py:268-272 | each related candidate is linked back once and saved |
| Lifecycle.CandidateLifecycle.OpenCandidate | gateway/candidate_lifecycle.py:261-273 | a new candidate under an unused id, linked in both directions |
| Lifecycle.CandidateLifecycle.Ingest | gateway/candidate_lifecycle.py:214-273 | files a finding as its plan says, dispute line included; refuses exactly secret, unsafe and blank ones |
| Lifecycle.CandidateLifecycle.ConsolidateOne | gateway/candidate_lifecycle.py:330-350 | rescores one record and moves it as decided; KEEP saves nothing |
| Lifecycle.CandidateLifecycle.Consolidate | gateway/candidate_lifecycle.py:325-351 | every active record is decided once on what it was at the start, in dictionary order |
| Lifecycle.CandidateLifecycle.MarkFalse | gateway/candidate_lifecycle.py:377-392 | disputes a record and counts a contradiction; an unknown id changes nothing |
| Lifecycle.CandidateLifecycle.MarkImportant | gateway/candidate_lifecycle.py:394-402 | raises confidence, capped, and marks the record important |
| Lifecycle.CandidateLifecycle.RequestMoreEvidence | gateway/candidate_lifecycle.py:404-411 | notes the request and nothing else |
| Lifecycle.CandidateLifecycle.ApproveCommit | gateway/candidate_lifecycle.py:413-428 | commits exactly the user's own uncontradicted claims, and refuses without a trace otherwise |
| Lifecycle.CandidateLifecycle.ArchiveCandidate | gateway/candidate_lifecycle.py:430-437 | archives a record whatever its status |
| Lifecycle.CandidateLifecycle.SearchArchived | gateway/candidate_lifecycle.py:442-443 | the first archived record of the topic and claim key |
| Lifecycle.CandidateLifecycle.Revive | gateway/candidate_lifecycle.py:439-449 | makes that record a candidate again with one more piece of evidence, and no source key |
| LifecycleTheorems.RunKeepsOk | gateway/candidate_lifecycle.py:138-449 | over every sequence of operations and restarts: records well-formed and safely committed, the dictionary is the replayed ledger up to bookkeeping, evidence accounted for |
| LifecycleTheorems.CommitsAreSafe | gateway/candidate_lifecycle.py:83-129 | a committed record has no contradiction; it is a user class at the user tier, or domain-verified or web at the verified tier; and if from the web it has two web source keys |
| LifecycleTheorems.ContradictedNeverCommits | gateway/candidate_lifecycle.py:109-125 | a record once contradicted is never committed afterwards, whatever is done |
| LifecycleTheorems.ClaimsAreNeverOverwritten | gateway/candidate_lifecycle.py:214-273 | text, topic, key, class and source keys of a record survive everything; evidence and contradictions never shrink |
| LifecycleTheorems.EvidenceIsAccountedFor | gateway/candidate_lifecycle.py:198-212 | evidence is distinct source keys plus revivals seen in the ledger |
| LifecycleTheorems.QualityFloor | gateway/candidate_lifecycle.py:54-72 | an uncontradicted committable record with evidence 2 scores at least 0.70 even when stale |
| LifecycleTheorems.CommitsExactlyWhenReady | gateway/candidate_lifecycle.py:94-129 | on every reachable record COMMIT is decided iff evidence is at least 2, nothing contradicts it and its class is committable |
| LifecycleTheorems.FewSourcesCommitExactly | gateway/candidate_lifecycle.py:198-449 | consolidation commits a reachable record on fewer than two source keys iff it has one, was revived, is not contradicted, and is of a user class or domain-verified |
| LifecycleTheorems.RevivedClaimCommits | gateway/candidate_lifecycle.py:430-449 | any such claim, found once, archived and revived, is committed at the next consolidation on its one source key |
| LifecycleTheorems.SourcesAreNamed | gateway/candidate_lifecycle.py:192-212 | the sources a record says it used are those its source keys name |
| LifecycleTheorems.WebCommitsExactly | gateway/candidate_lifecycle.py:94-129 | a reachable web record is committed iff nothing contradicts it and two of its web keys differ in task or in sources |
| LifecycleTheorems.SingleListCommitsExactly | gateway/candidate_lifecycle.py:94-129 | if all its web keys name one list of sources, iff nothing contradicts it and two of them differ in task; no two then share a task |
| LifecycleTheorems.OneListCommits | gateway/candidate_lifecycle.py:192-212 | any web claim found by two tasks in one list of sources is committed at the next consolidation |
| LifecycleTheorems.StatusMovesExactly | gateway/candidate_lifecycle.py:214-449 | the status of an existing record after any operation: consolidation moves active records as decided; marking false, archiving, approving and reviving move the record they name; ingest and a restart move none |
| LifecycleTheorems.KeepIsInvisible | gateway/candidate_lifecycle.py:333-350 | what KEEP leaves unsaved can change no later decision |
| LifecycleTheorems.ReloadKeepsOk | gateway/candidate_lifecycle.py:155-174 | a reload restores every record up to that bookkeeping, in the same order |
| LifecycleTheorems.RestartsAreTransparent | gateway/app.py:491-494 | reloading between any operations changes no decision, no record beyond bookkeeping, and no order |
| LifecycleTheorems.EditsAreSim | gateway/candidate_lifecycle.py:214-449 | every operation writes the same on two states that differ only in that bookkeeping |
| LifecycleTheorems.SecondConsolidationIsIdle | gateway/candidate_lifecycle.py:325-351 | straight after a consolidation a second one keeps everything and saves nothing |
| LifecycleTheorems.ConflictDisputesBoth | gateway/candidate_lifecycle.py:233-251 | a conflicting finding is filed beside the incumbent, which keeps its claim; the next consolidation leaves both disputed |
| LifecycleJudgement.RefusesExactly | gateway/candidate_lifecycle.py:218-219 | exactly the secret, the unsafe and the blank are refused |
| LifecycleJudgement.FirstConflictIsContested | gateway/candidate_lifecycle.py:233-251 | else the first active record of the topic that conflicts is contested |
| LifecycleJudgement.DisputedIsContested | gateway/candidate_lifecycle.py:235-251 | else a disputed finding contests the first active record, or stands disputed alone |
| LifecycleJudgement.FirstAgreementIsMerged | gateway/candidate_lifecycle.py:253-259 | else it is merged into the first that is the same or supports it |
| LifecycleJudgement.RestIsOpened | gateway/candidate_lifecycle.py:261-273 | else it becomes a candidate linked to all it narrows or broadens |
| LifecycleJudgement.ConflictingWordsDispute | gateway/candidate_lifecycle.py:214-251 | end to end: a finding whose words conflict with an active record of its topic leaves the first such record and itself disputed after the next consolidation |
| LifecycleJudgement.AgreementIsEvidence | gateway/candidate_lifecycle.py:198-212 | end to end: an agreeing finding adds one piece of evidence, its key and its events to one record iff its key is new, leaves it judged as found, and moves nothing else |
| LifecycleJudgement.NewcomersAreAsFound | gateway/candidate_lifecycle.py:275-291 | a filed finding says what was found, under an unused id, disputed with one contradiction if contested, else a candidate, and is judged as against the record it meets first |
| LifecycleJudgement.LinksGoBothWays | gateway/candidate_lifecycle.py:261-273 | a new candidate and all it bears on are linked in both directions, and nothing else of them changes |
| LifecycleJudgement.DecidesExactly | gateway/candidate_lifecycle.py:94-129 | on a reachable record: dispute iff contradicted, archive iff uncontradicted, not canonical, alone, old and unstaked, reinforce iff new evidence and still open, else (bar commits) keep |
| LifecycleJudgement.DecisionsAreCarriedOut | gateway/candidate_lifecycle.py:325-350 | each active record is decided once, in order, and leaves with the evidence, priority, quality and status its decision says |
| LifecycleJudgement.ConsolidationNotes | gateway/candidate_lifecycle.py:333-337 | each active record is left with the evidence seen and its priority: evidence, twice the contradictions, attention |
| LifecycleJudgement.ConfidenceIsEarned | gateway/candidate_lifecycle.py:204-204 | neither revived nor marked important, a record has confidence 0.5, 0.8 or 0.95 for one, two or more sources; and always 0.5 to 0.95 |
| LifecycleJudgement.EvidenceWeighs | gateway/candidate_lifecycle.py:54-72 | evidence is worth 150 thousandths of quality up to the third |
| LifecycleJudgement.ImportanceWeighs | gateway/candidate_lifecycle.py:69-69 | importance is worth 100 |
| LifecycleJudgement.ContradictionWeighs | gateway/candidate_lifecycle.py:70-70 | a first contradiction costs 300, more nothing |
| LifecycleJudgement.AgeAndDoubtWeigh | gateway/candidate_lifecycle.py:71-71 | age costs 100, a doubtful relation 100 |
| LifecycleJudgement.QualityStarts | gateway/candidate_lifecycle.py:61-72 | a fresh single finding starts from 650, by class diversity, verification and unverified web |
| LifecycleJudgement.HandsMoveOne | gateway/candidate_lifecycle.py:377-437 | what each manual act does to its record, and that it does nothing to any other |
| LifecycleJudgement.RevivalMovesOne | gateway/candidate_lifecycle.py:439-449 | revival makes the first archived record of the topic and claim a candidate with one more piece of evidence, and changes nothing else of it, nor any other |
| LifecycleJudgement.DisputesAreOnFile | gateway/candidate_lifecycle.py:293-306 | a dispute line is written iff a record is contested: one, naming both parties, the heads of their claims, their classes, the relation, and whom it is put to |
| LifecycleJudgement.HeadsAreKept | gateway/candidate_lifecycle.py:275-306 | a record keeps the first 300 characters of its claim, a dispute line the first 200 of either side |
| LifecycleJudgement.StepsExactly | gateway/candidate_lifecycle.py:293-303 | whom a dispute is put to |
| Pressure.PressureModel.Touch | gateway/pressure.py:65-70 | a topic's record is created empty on first use and otherwise left as it is |
| Pressure.PressureModel.Observe | gateway/pressure.py:97-128 | what an answer adds to a topic; secret and refused ones add no pressure and only count for safety |
| Pressure.PressureModel.Count | gateway/pressure.py:109-119 | what the answer itself counts and adds, a repeated UNKNOWN weighing more |
| Pressure.PressureModel.constructor | gateway/pressure.py:38-52 | a pressure model starts as what its file holds |
| Pressure.PressureModel.Feedback | gateway/pressure.py:130-145 | bad ratings add 3 and count a correction, good ones take 1, never below zero |
| Pressure.PressureModel.Correction | gateway/pressure.py:147-156 | a correction adds 2 |
| Pressure.PressureModel.Decay | gateway/pressure.py:158-172 | every unfrozen topic fades by the hours since it was seen, each on its own |
| Pressure.PressureModel.FadeOne | gateway/pressure.py:163-169 | one topic's fading, frozen, empty and future ones skipped |
| Pressure.PressureModel.TaskOutcome | gateway/pressure.py:174-188 | success relieves, dispute only marks, anything else counts a failure and adds 1 |
| Pressure.PressureModel.Freeze | gateway/pressure.py:190-193 | freezing marks a topic and changes nothing else of it |
| Pressure.PressureModel.RelieveTopic | gateway/pressure.py:195-200 | relieves a known topic down to zero at most |
| Pressure.PressureModel.Relieve | gateway/pressure.py:202-214 | drains topics along the descending order and returns what was removed |
| Pressure.PressureModel.Spend | gateway/pressure.py:205-214 | the loop: what is drained from each topic and what is left over |
| Pressure.PressureModel.TakeFrom | gateway/pressure.py:209-212 | what a topic gives is what the caller no longer has to find; neither goes below zero, and one of the two is used up |
| Pressure.PressureModel.TotalPressure | gateway/pressure.py:217-218 | the sum over all topics |
| Pressure.DrainedAt | gateway/pressure.py:205-212 | each topic moves by exactly its share of the amount |
| Pressure.ReliefTotals | gateway/pressure.py:202-214 | the returned number is min(amount, total), and is what the total went down by |
| Pressure.ReliefIsExact | gateway/pressure.py:202-214 | the same, and no topic goes below zero or up |
| Pressure.ReliefDrainsPrefix | gateway/pressure.py:206-212 | a prefix of the order is emptied, at most one topic partly drained, the rest untouched |
| Pressure.ReliefTouchesFewest | gateway/pressure.py:206-212 | no scheme that removes as much or more touches fewer topics |
| PressureTheorems.CountsAreSums | gateway/pressure.py:97-188 | the counts of a topic are those of what happened to it |
| PressureTheorems.PressureIsSum | gateway/pressure.py:97-188 | while nothing relieves it, its pressure is the weighted sum of what happened to it |
| PressureTheorems.ReliefOfOne | gateway/pressure.py:138-184 | a good rating and a successful task take 1 at most |
| PressureTheorems.OtherTopicsStay | gateway/pressure.py:65-70 | what happens to one topic touches no other |
| PressureTheorems.HandsOnOneTopic | gateway/pressure.py:190-200 | what freezing and relieving by hand do to their topic |
| PressureTheorems.OnlyPressureMoves | gateway/pressure.py:158-214 | relief and fading keep every topic, and change of it its pressure and, on relief, the advice alone |
| PressureTheorems.SeenWhenAnswered | gateway/pressure.py:97-128 | a topic was last seen at its last answer that counts, and nothing else is a sight of it |
| PressureTheorems.AdviceFits | gateway/pressure.py:84-95 | the advice follows from the counts of what happened: dispute, correction, research, asking, nothing |
| PressureTheorems.FadesByTime | gateway/pressure.py:158-172 | only an unfrozen topic under pressure fades, to the nearest thousandth of what the time since it was last seen leaves |
| PressureTheorems.FadingCompounds | gateway/pressure.py:158-172 | fading twice leaves no more than fading once at the later time, and strictly less once the first took two thousandths |
| PressureTheorems.FadesByTheTick | gateway/pressure.py:158-172 | a pressure of 3 unseen for two hours is 2 if faded once and 1.5 if faded hourly |
| ResearchTasks.ResearchTaskQueue.constructor | gateway/research_tasks.py:40-60 | a new queue holds its log, replayed |
| ResearchTasks.ResearchTaskQueue.Append | gateway/research_tasks.py:62-69 | a task reaches the log and the queue |
| ResearchTasks.ResearchTaskQueue.FindByTopic | gateway/research_tasks.py:72-76 | the first open task of a topic, if any |
| ResearchTasks.ResearchTaskQueue.Create | gateway/research_tasks.py:78-104 | a secret files nothing; else bumps the open task of the topic or files a new one, blocked if it wants the web unallowed |
| ResearchTasks.ResearchTaskQueue.SetStatus | gateway/research_tasks.py:110-120 | moves a known task, with its result if one is given, and logs it |
| ResearchTasks.ResearchTaskQueue.ApproveWeb | gateway/research_tasks.py:122-131 | lifts the permission and makes the task pending |
| ResearchTasks.ResearchTaskQueue.Cancel | gateway/research_tasks.py:133-134 | cancels a known task |
| ResearchTasks.ResearchTaskQueue.Open | gateway/research_tasks.py:140-141 | the open tasks, in order |
| ResearchTasks.FindOpenFinds | gateway/research_tasks.py:72-76 | the search finds an open task of the topic iff there is one |
| ResearchTasks.CreatedKeepsOk | gateway/research_tasks.py:78-104 | creation keeps at most one open task per topic, leaves the topic one, and loses nothing in a restart |
| ResearchTasks.WithStatusKeepsOk | gateway/research_tasks.py:110-120 | moving an open task, or closing one, keeps the same |
| ResearchTasks.OpenTaskIsBumped | gateway/research_tasks.py:84-92 | filing an open topic raises its task's priority by one half if triggered, and changes nothing else |
| ResearchTasks.NewTaskIsFiled | gateway/research_tasks.py:93-104 | filing any other adds one task as filed, blocked and permissioned iff it wants the web without leave |
| ResearchTasks.MovesExactly | gateway/research_tasks.py:110-131 | moving and approving change their task alone |
| LifeLoop.ByonLifeLoop.constructor | gateway/lifeloop.py:54-103 | a loop starts on its pressure file and task log, with no counters and no history of its own |
| LifeLoop.ByonLifeLoop.Restarted | gateway/lifeloop.py:54-103 | a new process on the same files is the `Restart` step of the runs |
| LifeLoop.ByonLifeLoop.RecordInteraction | gateway/lifeloop.py:122-180 | an interaction is counted, felt as pressure, and files a task if unresolved and repeated or accumulated, never on a secret |
| LifeLoop.ByonLifeLoop.CountInteraction | gateway/lifeloop.py:135-155 | the last fifty questions, the counters and rates, the disputed reasons |
| LifeLoop.ByonLifeLoop.CountAnswer | gateway/lifeloop.py:135-153 | the counter of the status, the two rounded rates, the repetitions |
| LifeLoop.ByonLifeLoop.FileIfUnresolved | gateway/lifeloop.py:170-179 | when a task is filed, and at which priority |
| LifeLoop.ByonLifeLoop.RecordFeedback | gateway/lifeloop.py:182-196 | feedback moves the topic's pressure and the loop's own |
| LifeLoop.ByonLifeLoop.RecordCorrection | gateway/lifeloop.py:198-206 | a correction adds pressure and a reason to consolidate |
| LifeLoop.ByonLifeLoop.ConsolidateIfDue | gateway/lifeloop.py:209-248 | when consolidation is due, and what it resets; pressure is relieved only if it succeeded |
| LifeLoop.ByonLifeLoop.RunTask | gateway/lifeloop.py:385-410 | one task run: running, reported, then done or failed with its result, or blocked after repeated failure |
| LifeLoop.ByonLifeLoop.TryTask | gateway/lifeloop.py:381-410 | runs a task iff it is pending and memory-only |
| LifeLoop.ByonLifeLoop.DrainTasks | gateway/lifeloop.py:374-411 | runs pending memory-only tasks by priority, at most the limit, each logged once |
| LifeLoop.ByonLifeLoop.Tick | gateway/lifeloop.py:224-258 | consolidation if due, then decay, then draining if enabled |
| LifeLoop.ByonLifeLoop.MarkResolved | gateway/lifeloop.py:435-440 | relieves the topic and cancels its open tasks |
| LifeLoopTheorems.LiveIsHealthy | gateway/lifeloop.py:122-411 | every run without operator actions keeps: pressures non-negative, counts of failures exact, one open task per topic, none left running, results fitting their status, and the log explaining every task |
| LifeLoopTheorems.ErrorBlocksExactly | gateway/lifeloop.py:374-411 | in every run, each line of the result log that is an error, wherever in a tick it was run, left its task blocked iff an earlier line of its topic is fruitless, else failed with the error |
| LifeLoopTheorems.ErrorBlocksAtOnce | gateway/lifeloop.py:385-409 | the same of one execution, from any state with sound pressures, exact counts and a replayed queue |
| LifeLoopTheorems.LogExplainsTasks | gateway/lifeloop.py:374-411 | no task is run twice, each task with a result has a line in the log, and each line fixes the status and result of its memory-only task |
| LifeLoopTheorems.DoKeeps | gateway/lifeloop.py:122-411 | whatever is kept when pressures move, when a task is filed and when a task is run, every operation keeps |
| LifeLoopTheorems.TaskRunKeepsSane | gateway/lifeloop.py:385-409 | one task run keeps pressures, exact counts and the replayed queue |
| LifeLoopTheorems.OneErrorCanBlock | gateway/lifeloop.py:395-406 | on any topic that is no secret, a run ending UNKNOWN and one ending in error block the topic after one error |
| LifeLoopTheorems.StoredResultsFit | gateway/research_tasks.py:110-120 | a done task holds a result that is no error, a failed one the error, and one blocked without awaiting permission the reason |
| LifeLoopTheorems.TicksAreBounded | gateway/lifeloop.py:369-411 | a tick adds at most its limit to the log, leaves nothing running, and runs no web, permissioned or secret task |
| LifeLoopTheorems.DrainIsBounded | gateway/lifeloop.py:381-383 | draining adds at most the limit to the result log, from any state |
| LifeLoopTheorems.DrainKeepsHealthy | gateway/lifeloop.py:374-411 | whatever the drained tasks return, the loop stays healthy |
| LifeLoopDrain.DrainTakesTheBest | gateway/lifeloop.py:381-386 | from any state and for any limit: if a drain runs a task it has run before it every runnable one of higher priority, or of the same and earlier in the queue |
| LifeLoopDrain.DrainTakesAsMany | gateway/lifeloop.py:381-386 | it runs exactly its limit, floored at zero, or all runnable ones if fewer; each once, and nothing else |
| LifeLoopOperator.AutonomousFailureIsBounded | gateway/lifeloop.py:389-409 | left to itself the loop errs at most twice on any topic, and at most one task of it is open |
| LifeLoopOperator.FailureIsBounded | gateway/lifeloop.py:389-440 | whatever the operator does, a topic sees at most two errors and one more for each time the operator handled a task of it |
| LifeLoopOperator.BoundIsReached | gateway/lifeloop.py:400-409 | for every number of handlings, and every topic that is no secret, a run in which it sees that many |
| LifeLoopOperator.PerformKeepsWithin | gateway/research_tasks.py:110-134 | one step of the loop or the operator: errors so far and pending tasks of a topic stay within the allowance, which a handling of the topic raises by one |
| LifeLoopOperator.FailsAreFruitlessRuns | gateway/lifeloop.py:394-409 | in every run, operator included, the failures counted against a topic are exactly its executions that neither succeeded nor came back disputed |
| LifeLoopOperator.TaskRunKeepsWithin | gateway/lifeloop.py:394-409 | one task run keeps that allowance: a second fruitless run that errs leaves its task blocked |
| LifeLoopOperator.RestartKeepsQueue | gateway/research_tasks.py:46-69 | a restart brings the task queue back exactly, whatever the operator did before |
| LifeLoopOperator.PressuresStayNonNegative | gateway/pressure.py:97-214 | no pressure is ever negative, freezing, relieving and resolving topics by hand included |
| LifeLoopOperator.AttendedIsSane | gateway/app.py:424-480 | every run, the operator freezing, relieving, resolving, moving and approving at any time, keeps pressures non-negative, counts exact and the queue its replayed log |
| LifeLoopOperator.DrainsAreSane | gateway/lifeloop.py:224-258 | every state inside a tick of any run, operator included, is such a state: after consolidation and decay, and after any tasks tried |
| LifeLoopOperator.RatesAreShares | gateway/lifeloop.py:135-153 | no interaction is counted twice, and both rates are rounded shares between 0 and 1 |
| LifeLoopOperator.ResolvedClosesTopic | gateway/lifeloop.py:435-440 | resolving a topic cancels every open task of it and touches no other task |
| LifeLoopOperator.ResolvedRelievesTopic | gateway/lifeloop.py:435-440 | and takes 999 from the pressure of that topic, at most down to nothing, and from no other |
| LifeLoopCounts.TallyCounts | gateway/lifeloop.py:135-155 | in every run each counter is the number of such answers since the process came up, repetitions the questions asked again within fifty, the rates their rounded shares, and the remembered questions the last fifty not blank |
| LifeLoopCounts.UnknownsAreCounted | gateway/pressure.py:109-116 | in every run a topic's UNKNOWN and provisional counts are those of the whole run |
| LifeLoopCounts.FilesExactlyWhenDue | gateway/lifeloop.py:170-179 | an interaction files a task iff it is no secret, unresolved, and repeated, or the second UNKNOWN or provisional on its topic; with the priority of its pressure |
| LifeLoopCounts.SecondUnknownIsResearched | gateway/lifeloop.py:170-179 | a second UNKNOWN always leaves its topic an open task |
| LifeLoopCounts.TickConsolidatesWhenDue | gateway/lifeloop.py:209-248 | a tick consolidates iff that is due as it finds things, and what that resets |
| LifeLoopCounts.ConsolidationRelieves | gateway/lifeloop.py:209-248 | it relieves 2, or all there is, only if it succeeded |
| LifeLoopCounts.TickRunsAfterFading | gateway/lifeloop.py:224-258 | tasks run from the state consolidated first and faded second |
| LifeLoopCounts.InteractionsAreNoted | gateway/lifeloop.py:135-206 | every interaction counts towards consolidation, and a disputed answer, like any event noted, is a reason for it |
| LifeLoopCounts.SecretsLeaveNoTrace | gateway/lifeloop.py:129-180 | a secret leaves no trace on any topic but the one all secrets share, and files nothing |
| LifeLoopCounts.RestartForgets | gateway/lifeloop.py:54-103 | a restart forgets what the process counted, and keeps pressures, tasks and results |
| LifeLoopCounts.RatingsAreFelt | gateway/lifeloop.py:182-206 | what ratings and corrections do to the loop's own pressure and reasons |
| Expression.StripPlanScaffolding | gateway/expression_learning.py:184-193 | drops plan lines that are no truth lines |
| Expression.MakeDirect | gateway/expression_learning.py:196-207 | drops or cuts preamble among the first two lines, never a truth line |
| Expression.StripEnglishPreamble | gateway/expression_learning.py:210-214 | drops an English first line unless it is a truth line |
| Expression.PreserveTruth | gateway/expression_learning.py:217-223 | afterwards the text holds every truth line trimmed; after condensing transforms it changes nothing |
| Expression.WithoutPlansCondenses | gateway/expression_learning.py:184-193 | the plan transform only drops lines, no truth line among them |
| Expression.DirectCondenses | gateway/expression_learning.py:196-207 | the direct transform only drops or cuts lines, no truth line among them |
| Expression.WithoutEnglishCondenses | gateway/expression_learning.py:210-214 | so does the English one |
| Expression.CondensesTransitive | gateway/expression_learning.py:171-176 | transforms chain |
| Expression.TransformKeeps | gateway/expression_learning.py:171-176 | splitting, transforming and rejoining a text still condenses the draft |
| Expression.TruthIsThere | gateway/expression_learning.py:177-178 | a condensed text contains every truth line of the draft, so the safety net never fires |
| Expression.Apply | gateway/expression_learning.py:163-180 | what there is to read of the output is what the learned transforms leave of the draft's lines, or the draft if they leave nothing; it delivers the draft, and is trimmed with no three newlines in a row |
| Expression.DeliveryKeepsTruth | gateway/expression_learning.py:177-178 | the truth lines of the draft are a subsequence of what is shown |
| Expression.DeliveryInventsNothing | gateway/expression_learning.py:163-180 | every line shown is part of one line of the draft |
| Expression.PlansExactly | gateway/expression_learning.py:184-193 | without plans exactly the truth lines and the lines that are no plans are left, in order |
| Expression.DirectExactly | gateway/expression_learning.py:196-207 | untruthful preamble among the first two lines is cut, every other line stays |
| Expression.AfterColonIs | gateway/expression_learning.py:200-205 | to what follows its first colon, trimmed, or to nothing |
| Expression.EnglishExactly | gateway/expression_learning.py:210-214 | only a first line that is English and no truth line goes |
| Expression.UnmatchedAreShown | gateway/expression_learning.py:163-180 | every readable draft line that no learned kind matches is shown, in order |
| Expression.ShownComesFrom | gateway/expression_learning.py:163-180 | every shown line comes from one draft line, whole or cut by Direct, and under NoAbstractPlans from no plan |
| Expression.TransformsGoInTurn | gateway/expression_learning.py:171-176 | plans go before preamble is looked for, preamble before English |
| Text.CollapseContent | gateway/expression_learning.py:179 | collapsing runs of newlines changes no visible line |
| Text.TrimContent | gateway/expression_learning.py:179 | stripping the text changes no visible line |
| Text.LinesJoin | gateway/expression_learning.py:193 | joining lines and splitting again gives them back, up to one empty last line |
| Text.TrimExactly | gateway/expression_learning.py:179-179 | stripping takes what is blank at both ends and no more |
| Text.CollapseExactly | gateway/expression_learning.py:179-179 | collapsing leaves no three newlines in a row and changes no text without them |
| Integration.Reachable | verify_integration.py:123-131 | returns exactly the modules an import path reaches from a root that is a module, and terminates |
| Integration.KnownRoots | verify_integration.py:124 | the roots that are modules |
| Integration.IndexByHash | verify_integration.py:145-148 | the modules of each content hash |
| Integration.Duplicates | verify_integration.py:143-149 | exactly the modules with another of the same content hash |
| Integration.Classify | verify_integration.py:134-158 | every module gets one status: duplicate if a copy, else wired iff an import path reaches it |
| Integration.MoreRootsNeverUnwire | verify_integration.py:141-142 | more roots un-wire nothing and change no duplicate |
| Integration.Verdict | verify_integration.py:205-215 | passes iff every critical module is there, no copy and reached, and no violation is critical |
| Integration.EntriesExactly | verify_integration.py:134-142 | which modules are entry points |
| Integration.CopiesAreHashed | verify_integration.py:143-149 | which modules can be copies |
| Router.Rerank | gateway/query_router.py:223-260 | scores every hit and sorts |
| Router.RankingIsStable | gateway/query_router.py:255-260 | the ranking is a stable permutation of the scored hits, best first |
| Router.AboveExactly | gateway/query_router.py:230-256 | one kind of hit outscores another at all similarities iff their boosts differ by more than 1 |
| Router.AboveGoesFirst | gateway/query_router.py:256-259 | then it precedes it, wherever the two stood |
| Router.NotAboveCanGoSecond | gateway/query_router.py:256-259 | and otherwise some two such hits are ranked the other way round |
| Router.TrustedBeforeVault | gateway/query_router.py:231-238 | for architecture and contradiction questions every canonical or verified fact from outside the vault precedes every vault hit of tier EXTRACTED_USER_CLAIM or below |
| Router.TierAloneDecides | gateway/query_router.py:19-29 | from one source a tier decides by itself iff the question is about the system and the tiers are SYSTEM_CANONICAL and DISPUTED_OR_UNSAFE |
| Router.AcquiredCanOutrank | gateway/query_router.py:22-25 | an external-LLM, external-verified or model-prior packet at similarity 1 is ranked before a canonical or project fact at 0 |
| Router.CommittedOfRanked | gateway/query_router.py:263-264 | filtering the committed tiers commutes with ranking |
| Router.VaultPreferenceCanOutrank | gateway/query_router.py:19-30 | the committed tiers are not enough: a user preference in the vault is ranked before a verified fact from elsewhere |
| Router.BetterTierGoesFirst | gateway/query_router.py:19-30 | of two equally similar hits from one source the better tier is first, whatever is asked |
| Router.AboveByPlaceAndTier | gateway/query_router.py:230-256 | the exact odds of two kinds of hit, by place and tier, for every intent |
| Router.VaultQuestionsPreferVault | gateway/query_router.py:247-252 | a vault question puts every vault hit before every relation or repository hit less than five tiers higher, and no other |
| Router.RelationQuestionsPreferRelations | gateway/query_router.py:239-246 | how far in tier a relation must be from vault and repository hits to precede them |
| Router.GeneralQuestionsDecideNothing | gateway/query_router.py:253-254 | for a general question similarity can put any kind of hit first |
| Router.CommittedAreBest | gateway/query_router.py:30-30 | the committed tiers are the four best |
| StableSort.SortDescSorts | gateway/query_router.py:259 | the sort is a descending, stable permutation |
| StableSort.StableOrderIsUnique | gateway/query_router.py:259 | and the only one, so any stable descending sort is it |
| StableSort.SortPutsBefore | gateway/query_router.py:259-259 | what is larger, or as large and earlier, stands before |
| Rounding.NearestExactly | gateway/candidate_lifecycle.py:72-72 | the rounding is to the nearest, ties to even, and nothing else is |

## Left out

- The neural pass of the cortex (embeddings, attention, plastic matrix, training, audits, verdict thresholds) and `tempo_multiplier`: learned floats and a real exponent.
- The ablation flags of the session ledger: the model runs with the defaults. Logits are the labels they are one-hot for.
- SessionLedger.Session.Advance: the update energy of a step, a mean over the batch that is only reported, is not modelled.
- SessionLedger.Serve: likewise.
- SessionLedger.Forward: likewise for the core energy, the mean over the steps.
- HashChain.TemporalLedger.constructor: the JSON reader is a parameter, so what text a line has to be to parse is not modelled; lines that parse to something without a digest are not either.
- HashChain.TemporalLedger.Append: the JSON encoding under the hash is part of the hash.
- Lifecycle.CandidateLifecycle.Ingest: updated-at times, the provenance copy, the audit file and `mem.store_fact` are not modelled.
- Lifecycle.CandidateLifecycle.FileChallenger: nor are the time and the free-text reason of a dispute line.
- Lifecycle.CandidateLifecycle.MergeEvidence: nor is its audit line; the sources used are a set, which the original keeps sorted.
- ResearchTasks.ResearchTaskQueue.Create: the question text and the list of triggering events are not modelled, only whether there were any.
- LifeLoop.ByonLifeLoop.RecordInteraction: the event stream it writes is not modelled.
- LifeLoop.ByonLifeLoop.RunTask: nor are the summary, sources and audit fields of a task result.
- LifeLoop.ByonLifeLoop.Tick: the relation cycle, the candidate hook and the snapshot are not modelled; the gap scan files tasks, as the `File` operation of the model may at any time.
- Floating-point rounding: conservation, decay and confidence are exact in the reals.
- Keys and sources outside their ranges: the tensors would be indexed out of bounds, or from the end for a negative index.
- `list` of the lifecycle sorts by the priority that KEEP leaves unsaved, so its order can change over a restart; restart transparency is up to priority, quality and last-evaluated evidence.
- Environment variables that move the lifecycle thresholds: the quality floor holds at the defaults.
- Operator actions are part of the runs of `LifeLoopOperator`, not of those of `LifeLoopTheorems`: an operator can reopen a closed task, so one open task per topic and the log explaining every task hold while he stays away.
- The operator's start of a task by hand (gateway/app.py:424-460) is its moves to running and to done or failed; the research in between is not modelled.
- `priority`, `top`, `counts` and event-id lists of pressure and tasks.
- The Claude advisor of the classifier: absent.
- The vocabularies of markers, intents and canonical constraints, detection and loading of style preferences, and storing them.
- Line breaks other than newline, and white space other than space, tab, newline and carriage return.
- Parsing imports into a graph, the violation scanners and the reports of the integration audit.
- HTTP, MCP, locks, files that cannot be read or written, subprocess supervision, and web, NLI and FAISS providers.
