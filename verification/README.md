# Link failover fabric: a verified model

This project models the durable core of a link failover coordinator and proves what it promises. The
coordinator receives observations about links, decides under a policy whether a failed link may be
replaced, grants at most one attempt authority over a link generation, and keeps its decisions in an
append-only lineage that survives crashes.

## Layers

* **Authority protocol.** `Protocol` gives every public call of the engine as a function from state to
  state and reply; `EngineObject.Engine` and `Store.LineageStore` are the objects the source has, with
  methods proved equal to those functions on the whole state. `Invariant`, `Lifecycle`, `StoreSafety`,
  `EngineSafety`, `EngineCalls` and `Restart` carry an inductive invariant through every commit and call,
  and `Runs`, `Grants`, `Idempotency`, `IndexEntries`, `IndexRuns`, `EvidenceRuns`, `Outcomes` and
  `Recovery` state what follows for all runs; `TableRuns` has the single winner under a weaker premise.
  `Answers`, `Gate`, `Requests`, `Publishing`, `Directives` and `Definitions` say in the state's own terms
  what every call answers and leaves, so that no result rests on the protocol's functions alone.
  `Scenario` steps through single calls; `Premise`, `Eviction` and `LostIndex` put them together into the
  runs that show why each premise is needed.
* **Durable lineage.** `Lineage` has the records, the medium and replay; `Refinement` relates the live
  state to what replay rebuilds; `JournalBytes`, `Durability` and `Payloads` take this down to the bytes
  of the file; `Codec`, `RecordCodec` and `Snapshot` are the encodings. `TypedStore`, `TypedCalls` and
  `TypedRuns` carry the ranges of all values along every run, so that whatever is written reads back.
* **Algorithms.** `Wire` (streaming frames), `Sha256` and `Crc32c`, `Selector`, `Verdicts` and
  `Resolution` (what evidence establishes), `PolicyText`. `Layouts` states the framings byte by byte, and
  `KnownAnswers` computes the hashes' published values.

## How a run is modelled

Every call runs under one lock, so a run is a sequence of calls and reopenings. What the medium will do is
part of each event: `room` writes succeed, the next fails, and its record is whole on the medium or not;
a checkpoint is lost at one of three places or kept. Since the first failed write is final, this covers every failure
pattern, and a crash between any two steps of a call is a call whose writes fail from there on, followed
by a reopening. Clocks, digests and incarnations are parameters, and no result assumes that incarnations
are fresh.

**Standing premise.** The run results about single authority assume, event by event, what a caller can
check: a new topology brings back no link generation that was left, the attempt a failover request creates
does not take the table past its limit, and whoever reopens, under whatever retention limits, leaves room
for the table. `Premise` shows with a whole run each that one breach of the first, or one of the second, is
enough to lose the single winner; every other event of those runs keeps the premise. For the single winner
itself the first can be read off the current table: a generation may come back if its attempts are numbered
from 1 to their count, as when none of them is left, or none is missing (`TableRuns.SingleWinnerByTable`);
and exactly those definitions keep the invariant (`Invariant.DefinitionSurvivesExactlyWhen`).

**Ranges.** What concerns bytes assumes arguments in the ranges of their types: names of the identity
grammar, 64-bit and 32-bit counters, digests of 32 bytes, confidences up to 1000, and a clock with a tick
left. That the engine then writes nothing outside its ranges is proved, not assumed.

## What the code does that its documentation does not say

* A fence record's payload holds position 0, and replay demands the record's own position. So a medium
  with a fence above the snapshot's watermark cannot be reopened (`Restart.OpensExactlyWhen`,
  `Recovery.RollbackBarsReopening`).
* A crash between the snapshot and the journal rotation leaves a medium that is never opened again
  (`Recovery.LostRotationBarsReopening`).
* The first admissible observation of a candidate is taken even if it does not qualify, and can hide a
  qualified one (`Resolution.ChosenQualifiesExactlyWhen`).
* The objective's last tie-break compares link names only, so the best of several fabrics need not be unique
  (`Selector.TwoFabricsCanTie`, `Selector.UniqueExactlyWhen`). A failover request refuses candidates of
  another fabric (`src/engine.cpp:936`), so only a caller of the selector itself can meet the tie
  (`Grants.RequestHasOneBest`).
* A publisher's incarnation may return under a higher epoch and restart its sequences
  (`Evidence.ReturningIncarnationRestarts`); they ascend per incarnation where none returns
  (`Evidence.AscendPerIncarnation`).
* A generation that a topology brings back numbers its attempts on from how many are left, not from the
  highest, so an interrupted attempt can be out of the gate's sight (`Premise.TwoWinners`).
* Retention may drop a committed attempt that holds authority (`Premise.RetentionForgetsTheWinner`).
* A key whose index entry was evicted, or lost to a crash just after its grant, is granted again
  (`Eviction.EvictedKeyIsGrantedAgain`, `LostIndex.LostEntryIsGrantedAgain`).

## Model

| member | source | states |
|---|---|---|
| Runs.SingleWinner | src/engine.cpp:1003-1033 | In every state any run can reach, at most one attempt of a link generation holds authority under the current epoch and coordinator, live and on the medium. |
| Runs.WinnerIsSeen | src/store.cpp:1075-1098 | The active-authority lookup finds every active attempt: the gate cannot miss the winner. |
| Runs.AuthorityIsCurrent | src/engine.cpp:1968-2006 | Between calls each active authority carries the current policy and topology generations and digests, and every pending directive tells, field by field, to apply an authorized attempt that does. |
| Runs.SequencesAreFresh | src/engine.cpp:1314-1342 | The attempts of a current generation are numbered exactly 1 to their count, an interrupted one is the latest, and the count stays within the largest budget so far. |
| Runs.AttemptsOnlyClimb | src/engine.cpp:1485-1518 | Along any continuation each attempt of the lineage is still under its key, unchanged or further up its lifecycle, or an attempt of another generation has overwritten it after its own was left; epochs never fall. |
| Runs.ChangesAreBounded | src/attempt.cpp:83-112 | Over any run, of any length, an attempt of one generation changes at most seven times, and while it keeps its place at most as often as it climbed in rank. |
| Runs.RestartRestoresNothing | src/engine.cpp:466-507 | After a successful reopening nothing is in flight, nothing is active, and the epoch exceeds every retained authority's; each attempt of the medium is as it was or cut off with its reason; and, with room, the fences are the medium's followed by exactly one for each attempt cut off, in table order. |
| Runs.EpochsRise | src/engine.cpp:466-473 | The epoch of a later successful open exceeds that of every earlier boot. |
| Runs.LiveIsOnDisk | src/store.cpp:834-862 | A live state that has not failed is the state its medium describes. |
| Runs.NextKeeps | src/engine.cpp:883-1428 | One event, a call with any write failures or a reopening, keeps the invariant and moves the lineage forward. |
| TableRuns.SingleWinnerByTable | src/engine.cpp:1003-1033 | The single winner, in every state of every run each of whose definitions finds the attempts of the generations it defines numbered from 1 to their count: none left of one that comes back, or none missing. |
| TableRuns.NextNowKeeps | src/engine.cpp:544-2157 | One event under that premise keeps the whole inductive invariant, with any write failures. |
| TableRuns.NumberedMeans | src/engine.cpp:794-832 | What a caller checks in the table before a topology: no generation it defines misses a number up to its count or has one above. |
| TableRuns.ReachableIsNow | src/engine.cpp:425-512 | The premise by the table is weaker: every run under the standing premise keeps it. |
| Invariant.DefinitionSurvivesExactlyWhen | src/engine.cpp:794-832 | A new topology keeps the invariant behind the single winner if and only if the attempts of each generation it defines are numbered from 1 to their count. |
| Runs.RunKeeps | src/engine.cpp:425-512 | Any run under the standing premise keeps the invariant. |
| Runs.CallSteps | src/engine.cpp:754-1963 | Each of the ten calls is a sound step, however its writes end. |
| Premise.GateMissesTheInterruptedAttempt | src/engine.cpp:1018-1033 | A run whose only breach is one reinstated generation reaches an interrupted attempt that the gate does not see, with the next sequence already in use. |
| Premise.TwoWinners | src/engine.cpp:1894-1926 | A run from an empty medium that breaks the premise once, by reinstating a generation, and in which no write fails, ends with two active attempts of that generation; of the generation that came back, only attempt 3 of three was left, so the event breaks the weaker premise, too. |
| Premise.ReturningCompletes | src/store.cpp:578-662 | That run is one the engine completes, given digests of 32 bytes: every argument is in its range, and wherever it reopens the decoder accepts the snapshot on the medium. |
| Premise.NothingReinstatedMeans | src/engine.cpp:794-832 | The premise on a topology holds exactly when every link generation it newly defines was never defined before. |
| Premise.HistoryMeans | src/engine.cpp:794-832 | What a run remembers as once defined is exactly what its start or one of its topologies defined. |
| Premise.RetentionForgetsTheWinner | src/store.cpp:382-398 | A run that breaks the premise once, by a request to a full table, loses the attempt that holds authority, and the next request of the same boot is granted the same generation under the same sequence. |
| Retention.RetentionKeepsLive | src/store.cpp:382-398 | Retention drops only terminal attempts, never below its bound, and stays above it only when none is left. |
| Runs.ListingIsComplete | src/engine.cpp:1968-2006 | In every reachable state the listing holds exactly the attempts that wait for the applier, each once and in order, cut only at the caller's bound or the engine's. |
| Directives.ListingIs | src/engine.cpp:1968-2006 | The same for any table with unique keys: what each entry says field by field, the order, the length, and that nothing is missing unless a bound cut the list. |
| Retention.FirstAttemptsGo | src/store.cpp:382-398 | Of the ended attempts those first by subject and sequence are dropped. |
| Retention.NewestFencesStay | src/store.cpp:400-409 | The fences kept are the newest, oldest first. |
| Retention.LastEntriesStay | src/store.cpp:411-419 | The index entries kept are the last ones written, in order. |
| Invariant.CommitKeeps | src/store.cpp:834-862 | Every legal durable commit keeps the inductive invariant. |
| Invariant.AtMostOneActive | src/store.cpp:1075-1098 | Two active attempts of one pair would both have its largest sequence, hence be one. |
| Invariant.PairSeqnoFresh | src/engine.cpp:1247-1249 | A created attempt's sequence is above every sequence its pair uses. |
| Invariant.TopologyKeeps | src/engine.cpp:794-832 | A topology that reinstates nothing keeps the invariant. |
| Lifecycle.CommitEvolves | src/store.cpp:834-862 | Every legal commit leaves each attempt unchanged, climbed, or overwritten by another generation after its own was left; left generations stay left, and no attempt of them is made again. |
| Lifecycle.HeadroomFalls | src/attempt.cpp:83-112 | Each change of an attempt uses up some of its bounded headroom and nothing gives any back, for every step that moves the lineage forward. |
| Lifecycle.BlockedForever | src/engine.cpp:1927-1934 | A pair that revalidation left undetermined stays blocked along any evolution. |
| Lifecycle.BlockedShutsTheGate | src/engine.cpp:1018-1033 | While a blocked pair is current, its latest attempt is the undetermined one and nothing of it is active. |
| Table.UpsertMembers | src/store.cpp:421-429 | An upsert keeps keys unique and changes exactly one key. |
| Table.UpsertSeqnos | src/store.cpp:421-429 | What an upsert does to the sequences of a pair. |
| Table.UpsertCounts | src/store.cpp:1049-1061 | What an upsert does to the attempt count of a pair. |
| EngineCalls.FailoverSteps | src/engine.cpp:883-1428 | A failover request keeps the invariant through every gate, verdict, selection and write failure. |
| EngineCalls.OpenGateIsFree | src/engine.cpp:1003-1033 | A request that passes the gates finds no attempt of its pair in the way of a new one. |
| EngineCalls.GrantSteps | src/engine.cpp:1394-1428 | Staging and authorizing an attempt is sound even when the process dies between the two. |
| EngineCalls.InstallSteps | src/engine.cpp:834-878 | After a new definition no attempt holds authority, or the store has failed. |
| EngineSafety.ResolutionIsSensible | src/engine.cpp:1894-1926 | Re-binding an interrupted attempt is legal because it already occupies its pair. |
| EngineSafety.ExecuteSteps | src/engine.cpp:1434-1963 | Every call about a recorded attempt is a sound step. |
| Outcomes.ApplicationOutcome | src/engine.cpp:1434-1550 | An application report moves exactly one authorized attempt - aborted, acknowledged or committed, under the applier's incarnation, with its reason - or writes nothing; and every answer is stated: kind, assertion, outcome, codes, durability. |
| Outcomes.VerificationOutcome | src/engine.cpp:1552-1681 | A verification commits an acknowledged attempt whose effect was seen and ends one whose effect was not, or writes nothing; and in each of its cases the answer's kind, assertion, outcome, codes and durability are stated: only a seen effect answers Ok. |
| Outcomes.RollbackOutcome | src/engine.cpp:1686-1810 | A rollback whose expectations are met revokes exactly one authority holder and writes its fence, content and place stated, or writes nothing; and every answer is stated. |
| Outcomes.ResolutionOutcome | src/engine.cpp:1812-1963 | A revalidation resolves exactly one interrupted attempt, once, by its verdict, every field of it stated, or writes nothing; and every answer is stated. |
| Outcomes.GrantOutcome | src/engine.cpp:1324-1428 | A grant adds one authorized attempt under the next sequence, field by field as decided, names as predecessor the pair's newest attempt if that holds authority, and touches no other. |
| Outcomes.InstallOutcome | src/engine.cpp:834-878 | A definition that goes through aborts every holder under its own key, with the reason appended, and leaves every other attempt as it was. |
| Outcomes.PolicyOutcome | src/engine.cpp:754-792 | Only a valid policy of a higher generation is installed, with every holder aborted and, with room, one fence for each in table order; otherwise nothing changes; and every answer is stated. |
| Outcomes.TopologyOutcome | src/engine.cpp:794-832 | A topology of a higher generation is put in order and installed with every holder aborted; any other changes nothing; and every answer is stated. |
| Definitions.PolicyAnswers | src/engine.cpp:754-792 | Every answer to a policy, and the fences written. |
| Definitions.TopologyAnswers | src/engine.cpp:794-832 | Every answer to a topology, and the fences written. |
| Definitions.RevocationWrites | src/engine.cpp:834-878 | Revoking writes, with room, exactly one fence for each holder, in table order, under the current process. |
| Definitions.ValidPolicyMeans | src/policy.cpp:96-123 | A policy is valid exactly when its numbers are within their bounds. |
| Definitions.TopologyFaultMeans | src/policy.cpp:336-358 | A topology is valid exactly when its links are named, under generations that are not zero, strictly ascending and at most 4096. |
| Definitions.OptionsFaultMeans | src/engine.cpp:425-465 | What the options of an opening are refused for, first fault first. |
| Definitions.StartFaultMeans | src/store.cpp:715-753 | What a snapshot is refused for, first fault first. |
| Definitions.OpenAnswers | src/engine.cpp:425-512 | How opening ends: refused for its options or for what the medium holds, out of epochs or boots, unable to write, or open. |
| Definitions.StartsAnew | src/engine.cpp:466-507 | A process starts with what the medium restored, the next epoch and boot, and otherwise nothing. |
| Definitions.CutMeans | src/store.cpp:932-986 | What a restart makes of an attempt in flight, with the reason of how far it had come. |
| Definitions.LastDecisionsStay | src/engine.cpp:161-169 | The decisions remembered are the last ones made. |
| Definitions.CompactsExactlyWhen | src/engine.cpp:240-254 | A settled decision compacts the store exactly when snapshots are on and enough was written since the last. |
| Definitions.CheckpointAnswers | src/engine.cpp:2142-2157 | What a checkpoint leaves on the medium, or its failure. |
| Definitions.CloseAnswers | src/engine.cpp:514-539 | What closing leaves and answers. |
| Gate.GateOpensExactlyWhen | src/engine.cpp:976-1033 | The gate is open if and only if nothing in the state stands in the request's way, and otherwise refuses for the first thing that does. |
| Gate.FormIsChecked | src/engine.cpp:905-951 | A request is refused for its form exactly when it is malformed, with the reason of the first fault. |
| Requests.RequestAnswers | src/engine.cpp:883-1428 | Every answer to a failover request, case by case, in the terms of the state it found. |
| Requests.RequestOutcome | src/engine.cpp:1034-1249 | A request that is not granted adds one ended attempt, field by field, when its evidence or selection declines it within the budget, and otherwise leaves the table as it was. |
| Answers.ApplicationAnswers | src/engine.cpp:1434-1550 | Every answer to an application report, from the attempt as the table holds it. |
| Answers.VerificationAnswers | src/engine.cpp:1552-1681 | Every answer to a verification report. |
| Answers.RollbackAnswers | src/engine.cpp:1686-1810 | Every answer to a rollback request. |
| Answers.ResolutionAnswers | src/engine.cpp:1812-1963 | Every answer to a revalidation. |
| Answers.ComplaintsAre | src/authority.cpp:228-277 | The comparison finds exactly the expectations that differ from the current epoch, coordinator, generations and digests, each under its code. |
| Answers.DecisionIsJournaled | src/engine.cpp:172-203 | A decision that is answered as durable is the journal's next entry, under the position it names. |
| Answers.EntryKeepsDecision | src/engine.cpp:205-274 | A replay answers what was decided: the index entry keeps it. |
| Publishing.FailureReportOutcome | src/engine.cpp:544-647 | A report about a link: when it is accepted, what every table and register holds then, and why it is refused otherwise. |
| Publishing.ReplacementReportOutcome | src/engine.cpp:649-749 | The same for a report about an alternate. |
| Publishing.AcceptedExactlyWhen | src/engine.cpp:577-640 | A report is accepted if and only if its publisher is new with room in the registry, known under this incarnation, or restarted under a higher epoch; its sequence is above its place's last; and it replaces an entry or fits. |
| Publishing.RefusedChangesNothing | src/engine.cpp:577-625 | A refused report changes no table. |
| Grants.GrantMeans | src/engine.cpp:960-1249 | A grant's request was well formed; every expectation it gave equals the current value; the policy enables failover; no attempt of the pair held authority of this process; the pair's newest attempt was not interrupted; and the verdict, the selection and the budget were met. Its decision is bound to the current boot and definitions. |
| Grants.GrantsExactlyWhen | src/engine.cpp:883-1428 | When its two attempt records can be written, a request is granted anew if and only if it meets those conditions and its sequence is a 64-bit number; the gate's are stated without the gate. |
| Grants.GrantRestsOnEvidence | src/engine.cpp:1094-1249 | Behind a grant somebody who qualifies reports the failure and nobody who qualifies contradicts, or by majority fewer do; and the chosen alternate's evidence is current, confident, usable and uncontradicted. |
| Grants.SelectionAlwaysPasses | src/engine.cpp:1237-1242 | The internal check of the selection never fails for a well-formed request. |
| Grants.StuckPairIsNeverGranted | src/engine.cpp:1019-1032 | Once revalidated as unknown, no later call or reopening of any run grants that link generation again. |
| Idempotency.ReplayWritesNothing | src/engine.cpp:953-958 | A request whose key is indexed is answered from the index and leaves the store untouched. |
| Idempotency.OneGrantPerKey | src/engine.cpp:205-234 | Within one boot, without index eviction and while the index takes the entries of the grants made, no non-zero key is granted twice, whatever writes fail. |
| IndexEntries.GrantIsTaken | src/engine.cpp:205-227 | The entry of a grant of well-typed values is always within the index's bound of 4096 bytes. |
| IndexEntries.OneGrantPerKeyUnderTheBound | src/engine.cpp:205-234 | Under that bound, over any well-typed calls of one boot without index eviction, no non-zero key is granted twice, whatever writes fail. |
| IndexRuns.IndexedForGood | src/engine.cpp:953-958 | A key whose entry the medium describes is never granted again in any continuation of a run, whatever crashes and reopens in it, while the index has room under a bound that stays. |
| IndexRuns.GrantedOnceForAll | src/engine.cpp:205-234 | In any reachable world a grant under a non-zero key whose call leaves the store working is the last under that key, in this boot and after any crashes and reopenings, while the index evicts nothing. |
| IndexRuns.GrantedOnceForAllUnderTheBound | src/engine.cpp:205-234 | The same under the index's own bound, for well-typed values. |
| LostIndex.LostEntryIsGrantedAgain | src/engine.cpp:205-234 | When the medium takes a grant's records but not its index entry, the next process can grant the same key again: a run under the index's own bound, its arguments in their ranges, in which every event keeps the premise. |
| Eviction.EvictedKeyIsGrantedAgain | src/store.cpp:411-419 | Without room in the index a key can authorize twice: a session of one boot, with an index of one entry under its own bound and no write failing, grants one key, rolls back under another, and grants the first again. |
| TypedRuns.EveryGrantIsTaken | src/engine.cpp:205-227 | Over any calls of one boot with arguments in their ranges, room in the index or not, the index takes the entry of every grant. |
| TypedCalls.ShortIsTaken | src/engine.cpp:205-227 | The index takes the entry of every decision in its ranges with at most 18 reasons, a rollback's among them. |
| Idempotency.SettlementIsIndexed | src/engine.cpp:205-234 | After a durable settlement whose entry the index takes, the key is in the index, or the store has failed for the rest of the boot. |
| Restart.OpensExactlyWhen | src/store.cpp:715-800 | Opening succeeds exactly when the snapshot is valid, no fence record lies above the watermark, and the journal's base is not below it. |
| Restart.RestoredIsNear | src/store.cpp:754-793 | What opening restores, under any retention limits that hold the attempt table, is the described state, except lineage positions, the record count, and an index kept under another bound. |
| Restart.DescribesAgain | src/store.cpp:754-793 | A medium goes on describing what was restored of it when it is opened under other retention limits. |
| Restart.FenceRestartFences | src/store.cpp:932-986 | The restart fence interrupts and fences exactly what was in flight, in table order, or stops at a failed write with the lineage sound. |
| Restart.BootSteps | src/engine.cpp:466-507 | Booting is sound however its writes end, and a successful boot restores no authority. |
| Restart.OpenSteps | src/engine.cpp:425-512 | Opening, however it ends, leaves a sound lineage that comes after the previous one; a successful one interrupts and fences exactly what the medium held in flight. |
| Recovery.ReopensExactlyWhen | src/store.cpp:754-800 | The exact condition under which any reachable medium can be reopened. |
| Recovery.FenceBarsReopening | src/store.cpp:496-508 | A fence record above the watermark makes every reopening report Corrupt, through any later calls, failures, crashes and attempts to reopen, until a checkpoint moves the watermark. |
| Recovery.RollbackBarsReopening | src/engine.cpp:1779-1793 | In every reachable world a rollback that went through does so. |
| Recovery.LostRotationBarsReopening | src/store.cpp:880-911 | In every reachable world a checkpoint that loses its rotation over a non-empty journal leaves a medium that nothing opens or changes again, under any options and whatever is called later; valid options get Conflict. |
| Recovery.OvertakenForGood | src/store.cpp:754-800 | However the rotation was lost: once the store has failed over a medium whose snapshot has overtaken its journal, no later event opens or touches it. |
| Refinement.AppendDescribes | src/store.cpp:846-861 | A landed record carries what replay rebuilds to exactly the state after its commit. |
| Refinement.ReplayMirrors | src/store.cpp:431-536 | Replaying a legal record mirrors its live application, except that a fence is refused. |
| Refinement.SnapshotDescribes | src/store.cpp:864-930 | A snapshot of the live state, with the old journal or a fresh one, describes the same state. |
| Refinement.SuffixFoldsAlike | src/store.cpp:754-763 | Restoring a snapshot and folding only the records above its watermark equals folding the whole journal. |
| StoreSafety.CommitSafe | src/store.cpp:834-862 | A commit, whether it fails, lands unacknowledged or succeeds, leaves both the live and the described state sound. |
| StoreSafety.CheckpointSafe | src/store.cpp:864-930 | A checkpoint, however far it gets, changes nothing but the medium and the position. |
| Durability.CrashAtAnyByte | src/journal.cpp:463-572 | Cut anywhere inside the record being appended, the file reopens to the state before it, or after it when it is whole, and to nothing in between, for any payload codec that carries the records. |
| TypedRuns.CrashInAnyReachableWorld | src/journal.cpp:463-572 | So does the engine's own journal in every world that runs with arguments in their ranges reach, with its own payload codec for every record type. |
| TypedRuns.RecordsReadBack | src/store.cpp:431-536 | In every such world each record of the journal is replayed as it was committed. |
| TypedRuns.SnapshotReadsBack | src/store.cpp:538-662 | In every such world the snapshot on the medium is accepted and decoded to the state it was taken of, while its tables are within the decoder's bound. |
| TypedCalls.CallTyped | src/engine.cpp:544-2157 | Any call with arguments in their ranges, however its writes end, writes only records whose values are in their ranges, and takes at most one tick. |
| TypedStore.CommitTyped | src/store.cpp:834-862 | A commit of a record in its ranges keeps the live state, the journal and the snapshot in theirs. |
| TypedStore.OpenTyped | src/engine.cpp:425-512 | Opening over a medium in its ranges, however it ends, leaves state and medium in theirs. |
| Records.Explained | include/lff/outcome.hpp:191-204 | A caller's text is cut to 160 bytes. |
| Payloads.EveryRecordIsCarried | src/store.cpp:431-536 | Every well-typed record fits the journal's payload bound and is replayed from its payload as it was committed. |
| Payloads.DecisionReadsBack | src/decision.cpp:207-368 | Every decision within its bounds reads back exactly. |
| Durability.FoldIsReplay | src/store.cpp:754-763 | Replaying the written bytes of a lineage is folding its records. |
| Store.LineageStore.CommitRecord | src/store.cpp:834-862 | The write-ahead commit computes its specification on the whole store state. |
| Store.LineageStore.TakeCheckpoint | src/store.cpp:864-930 | Snapshot, rotation and mark, with each way of being cut short. |
| Store.LineageStore.FenceRestartAuthority | src/store.cpp:932-986 | The fencing loop computes its specification and counts what it interrupted. |
| Store.LineageStore.UpsertAttempt | src/store.cpp:421-429 | The in-place upsert. |
| Store.LineageStore.EvictAttempts | src/store.cpp:382-398 | Retention sorts and drops the first terminal attempts only, until the bound or none is left. |
| Store.LineageStore.EvictFences | src/store.cpp:400-409 | Fence retention keeps the newest. |
| Store.LineageStore.EvictIdempotency | src/store.cpp:411-419 | Index retention drops from the front. |
| Store.LineageStore.FindAttempt | src/store.cpp:1063-1073 | The lookup by subject and sequence. |
| Store.LineageStore.LatestAttempt | src/store.cpp:1032-1047 | The attempt of a pair with the highest sequence. |
| Store.LineageStore.CountAttempts | src/store.cpp:1049-1061 | The number of attempts of a pair. |
| Store.LineageStore.FindActiveAuthority | src/store.cpp:1075-1098 | The active attempt of a pair with the highest sequence. |
| Store.LineageStore.FindIdempotency | src/store.cpp:1100-1110 | The index lookup; the zero key is never found. |
| Store.ReplayJournal | src/store.cpp:754-766 | The replay loop folds the records above the watermark and refuses a sequence that does not advance. |
| Store.OpenLineage | src/store.cpp:682-806 | Opening a store over a medium. |
| EngineObject.Engine.PublishFailureReport | src/engine.cpp:544-647 | The observation call, branch by branch, on the engine's tables. Done holds exactly when the publisher may report, its sequence ascends and the entry fits; then the place holds this report, its digest and this receipt, and everything else stays but what the publisher's restart retired; a refusal gives the first reason and changes no table. |
| EngineObject.Engine.PublishReplacementReport | src/engine.cpp:649-749 | The same for the candidate observation call. |
| EngineObject.Engine.SetPolicy | src/engine.cpp:754-792 | The policy call on the whole engine state, with every answer and the fences it writes. |
| EngineObject.Engine.SetTopology | src/engine.cpp:794-832 | The topology call on the whole engine state, with every answer and the fences it writes. |
| EngineObject.Engine.FenceActiveAuthorities | src/engine.cpp:834-878 | The revocation loop. |
| EngineObject.Engine.RequestFailover | src/engine.cpp:883-1428 | The failover request on the whole engine state, with every answer stated in the terms of the state it found, down to the grant's vector. |
| EngineObject.Engine.CheckCandidates | src/engine.cpp:929-951 | The first bad candidate decides the refusal. |
| EngineObject.Engine.CheckGate | src/engine.cpp:976-1033 | The gate is open exactly when every expectation is met, failover is enabled, no attempt of the pair holds authority of this process and its newest is not interrupted; else each refusal under its own guard, with kind, outcome, codes and durability. |
| EngineObject.Engine.RecordApplication | src/engine.cpp:1434-1550 | The application call on the whole engine state, with every answer. |
| EngineObject.Engine.RecordVerification | src/engine.cpp:1552-1681 | The verification call on the whole engine state, with every answer: unknown attempt, other identity, already verified, not acknowledged, effect not seen, effect seen. |
| EngineObject.Engine.RequestRollback | src/engine.cpp:1686-1810 | The rollback call on the whole engine state, with every answer. |
| EngineObject.Engine.ResolveInterrupted | src/engine.cpp:1812-1963 | The revalidation call on the whole engine state, with every answer. |
| EngineObject.Engine.ListPending | src/engine.cpp:1968-2006 | The listing: each entry has the subject, replacement, generations, sequence, identity and authority of an authorized attempt with a replacement; in order; each such attempt once, or the list is cut at a bound and holds the first ones. |
| EngineObject.Engine.Checkpoint | src/engine.cpp:2142-2157 | The checkpoint call: the state on the medium as a snapshot and a fresh journal, or a failure that sticks. |
| EngineObject.Engine.Close | src/engine.cpp:514-539 | Closing: the mark, then compaction; final, and answered alike the second time. |
| EngineObject.OpenOver | src/engine.cpp:425-512 | Opening an engine over what an earlier process left. |
| EvidenceRuns.BookIsSound | src/engine.cpp:544-749 | In every state of every run the entry counter equals the retained entries within its limit, each is under its publisher's current incarnation, and no receipt is foreign or in the future. |
| Evidence.ObserveKeepsSound | src/engine.cpp:577-647 | Every observation, accepted or not, keeps the book sound. |
| Evidence.ForgetCounts | src/engine.cpp:600-609 | Retiring a publisher subtracts exactly the entries it removes. |
| Evidence.SequencesAscend | src/engine.cpp:611-621 | Across both report kinds and any restarts, accepted sequences strictly increase per link and publisher tenure. |
| Evidence.AscendPerIncarnation | src/engine.cpp:611-621 | Where no publisher's stamps return to an incarnation after leaving it, accepted sequences strictly increase per link and incarnation. |
| Evidence.RestartIsAcceptedExactlyWhen | src/engine.cpp:584-640 | A report under another incarnation than the registered one is accepted exactly when its epoch is higher and the tables have room, whatever its sequence. |
| Evidence.ReturningIncarnationRestarts | src/engine.cpp:584-609 | After any run, an incarnation that returns under a higher epoch is accepted under any sequence, and one no higher than before ends the ascent per incarnation. |
| Evidence.ThreeReportsReturn | src/engine.cpp:584-609 | Three reports are enough for the accepted sequence of an incarnation to fall. |
| Verdicts.OnlyCurrentOrExpired | src/engine.cpp:42-54 | In a sound book no evidence classifies as prior-incarnation or future. |
| Verdicts.JudgeFailure | src/engine.cpp:276-409 | The scan computes the declarative verdict, whatever the iteration order. |
| Verdicts.EstablishedMeans | src/engine.cpp:374-398 | Established means exactly that someone qualified reports failure and the agreement rule is met. |
| Verdicts.FailingMeans | src/engine.cpp:298-338 | What a qualified failing observation is. |
| Verdicts.AddingEvidence | src/engine.cpp:298-398 | An unqualified observation never changes whether failure is established; a healthy one never establishes it. |
| Verdicts.CitedIsUnique | src/engine.cpp:330-337 | The cited observation is unique. |
| Resolution.ResolveCandidate | src/engine.cpp:1097-1209 | The resolution of one candidate, with its choice and its conflict scan. |
| Resolution.ChosenQualifiesExactlyWhen | src/engine.cpp:1122-1168 | The chosen evidence qualifies exactly when the first admissible one does or a qualified one outranks it. |
| Resolution.EligibleRestsOnEvidence | src/engine.cpp:1094-1209 | What an eligible candidate's evidence is. |
| Verdicts.UsesMean | src/engine.cpp:298-329 | How each retained observation counts, in its own terms. |
| Verdicts.VerdictMeans | src/engine.cpp:340-409 | The verdict in the evidence's own terms: established and citing the most confident, latest received, first named failing observation; or which of missing, unqualified, contradictory and contrary evidence there is. |
| Resolution.ChosenIsStrongest | src/engine.cpp:1122-1168 | In a sound book the evidence chosen for an alternate is the first admissible by name, or a qualified one that is more confident, or as confident and received later, or first by name; and none that qualifies is stronger still. |
| Resolution.ResolvedShows | src/engine.cpp:1097-1209 | What an alternate is resolved to: its definition, the chosen evidence with its age, and whether it is contradicted. |
| Selector.BetterIsStrictTotal | src/selector.cpp:63-85 | The objective is a strict order, total on the links of one fabric. |
| Selector.SelectReplacement | src/selector.cpp:87-227 | The selection loops compute the outcome: somebody is selected exactly when a candidate may take over, and then it is the best one in the measures' own directions. |
| Selector.OrderIsInvisible | src/selector.cpp:175-176 | For duplicate-free candidates the whole outcome is the same for every order of the input. |
| Selector.StatusMeans | src/selector.cpp:193-227 | Selected, infeasible and empty hold exactly when some, none, or no candidate qualifies so. |
| Selector.SelectedIsBest | src/selector.cpp:205-227 | The selected candidate may take over; no other that may is at least as good in adjacency, confidence, age, capacity, cost and generation and better in one; and of its fabric it is lexicographically ahead of every other. |
| Selector.ObjectiveIsLexicographic | src/selector.cpp:63-85 | Adjacency, confidence, age, capacity, cost and generation decide in that order, each in its own direction, then the link's name; and who dominates is ahead. |
| Selector.ReasonIsTrue | src/selector.cpp:87-171 | The reason an assessment gives is true of the candidate. |
| Selector.TalliesMean | src/selector.cpp:177-227 | The outcome's numbers count its assessments, and its summary is its status's. |
| Selector.TwoFabricsCanTie | src/selector.cpp:82-84 | Across fabrics the last tie-break can tie. |
| Selector.TiesExactlyWhen | src/selector.cpp:63-85 | Two assessments tie if and only if they agree in every measure and in the link name. |
| Selector.UniqueExactlyWhen | src/selector.cpp:63-85 | Of distinct candidates the best is unique, whatever evidence and policy, if and only if no two share a link name. |
| Grants.RequestHasOneBest | src/engine.cpp:929-951 | A failover request, whose candidates must be of its own fabric, never meets such a tie. |
| Selector.ValidateSelection | src/selector.cpp:229-318 | The checker decides exactly its acceptance condition. |
| Selector.SelectorIsAcceptable | src/selector.cpp:229-318 | The checker accepts the selector's outcome exactly for duplicate-free candidates. |
| Wire.EncodeFrame | src/wire.cpp:99-130 | The encoder's refusals and its bytes. |
| Wire.FrameDecoder.Push | src/wire.cpp:141-228 | One push computes the parse of the buffered and new bytes. |
| Wire.ChunkingIsInvisible | src/wire.cpp:141-228 | Any chunking that fits delivers the same frames and ends in the same state as the whole stream. |
| Wire.ParseSplits | src/wire.cpp:152-226 | Parsing a stream is parsing its front, then the rest with what was left. |
| Wire.DeadStaysDead | src/wire.cpp:141-144 | Failure is permanent. |
| Wire.OversizedChunkIsRefused | src/wire.cpp:145-152 | A chunk beyond the bound fails the decoder even when its frames are good. |
| Wire.BytewiseFits | src/wire.cpp:145-152 | One byte at a time is never refused for its size. |
| Wire.StreamRoundTrip | src/wire.cpp:99-130 | Concatenated encoded frames parse back exactly. |
| Wire.Delivery | src/wire.cpp:99-228 | Sender to receiver: what is sent is delivered under any chunking that fits. |
| Layouts.FrameIsTakenExactlyWhen | src/wire.cpp:152-226 | The decoder takes a frame exactly when one of a known kind and within the bound stands whole at the front with its checksum, byte by byte. |
| Layouts.FrameIsRefusedBecause | src/wire.cpp:152-226 | Why a frame is refused, first fault first. |
| Layouts.FrameIsWritten | src/wire.cpp:99-130 | What the encoder writes is such a frame. |
| KnownAnswers.CrcCheckValue | tests/t_unit_ids.cpp:136-138 | The checksum of 123456789 is 0xE3069283. |
| KnownAnswers.AbcDigest | tests/t_unit_ids.cpp:130-131 | The digest of abc is the one the standard's examples give. |
| CrcBits.StepIsReflectedDivision | src/hash.cpp:13-36 | The step divides by the polynomial 0x1EDC6F41 with its bits reflected. |
| Sha256Words.ConstantsAreRoots | src/hash.cpp:38-86 | The round constants and initial words are the first 32 bits of the fractional parts of the cube and square roots of the first primes. |
| Crc32c.CrcConcat | src/hash.cpp:70-73 | The checksum of a concatenation is the chained checksum. |
| Crc32c.Extend | src/hash.cpp:56-64 | The table loop equals the bit-serial reflected division of section 12.1 of RFC 3720 for every input and seed. |
| Crc32c.BuildTable | src/hash.cpp:15-36 | Each table entry is eight division steps of its index. |
| Crc32c.Concat | src/hash.cpp:70-73 | The concatenating form computes the checksum of the concatenation. |
| Crc32c.BurstDetected | src/hash.cpp:56-68 | Equal-length inputs that differ only within four consecutive bytes have different checksums. |
| Sha256.Hasher.Update | src/hash.cpp:143-166 | The buffered update absorbs exactly the new bytes. |
| Sha256.Hasher.Finish | src/hash.cpp:168-190 | Finish yields the digest of section 6.2 of FIPS 180-4 over the padded message. |
| Sha256.Hasher.CompressInto | src/hash.cpp:93-141 | The round loop computes the compression of section 6.2.2 of FIPS 180-4. |
| Sha256.HashPieces | src/hash.cpp:143-190 | Any split across updates gives the digest of the whole. |
| Sha256.LengthFieldIsExact | src/hash.cpp:148-148 | Below 2^61 bytes the wrapped counter is the exact bit length. |
| Sha256Words.Sha256Of | src/hash.cpp:259-265 | The one-shot digest over 32-bit words. |
| JournalBytes.BuildRecordHeader | src/journal.cpp:182-196 | The header filled at its offsets is the header's layout. |
| JournalBytes.JournalWriter.Append | src/journal.cpp:354-397 | An append adds the whole record, or a prefix of it and fails for good. |
| JournalBytes.ReplayFile | src/journal.cpp:463-572 | The replay loop computes the scan of the file's bytes. |
| JournalBytes.TornTailAtEveryByte | src/journal.cpp:494-571 | Cut at any byte after the header: repair delivers exactly the whole records and keeps just them; strict replay refuses exactly off the boundaries. |
| JournalBytes.RepairIsFinal | src/journal.cpp:553-571 | A second replay after repair delivers the same and finds nothing torn. |
| JournalBytes.CutHeader | src/journal.cpp:478-492 | A file cut in its header is emptied by repair and refused otherwise. |
| JournalBytes.JournalHeaderReadsBack | src/journal.cpp:80-128 | A journal header reads back its base. |
| Layouts.RecordIsRead | src/journal.cpp:494-571 | What replay makes of the bytes in front of it, field by field at its offset. |
| Layouts.RecordIsWritten | src/journal.cpp:182-196 | What the writer appends for a record, field by field at its offset. |
| Layouts.JournalHeaderIsRead | src/journal.cpp:80-128 | What a journal's own header is refused for, and where its base stands. |
| Layouts.SnapshotIsRead | src/store.cpp:56-100 | What a snapshot file is refused for, first fault first, byte by byte. |
| Codec.Writer.PutAll | src/bytes.cpp:12-70 | The sticky writer appends fields in order, or fails for good on an over-long text. |
| Codec.Reader.TakeAll | src/bytes.cpp:75-155 | The sticky reader reads exactly what the layout says, or fails. |
| Codec.FieldsReadBack | src/bytes.cpp:12-155 | Fields written in order read back in order, whatever follows. |
| Snapshot.EncodeAttempt | src/attempt.cpp:128-159 | The attempt encoder writes the attempt's layout. |
| Snapshot.DecodeAttempt | src/attempt.cpp:161-241 | The attempt decoder accepts exactly what the layout's reading accepts. |
| RecordCodec.AttemptReadsBack | src/attempt.cpp:128-241 | Every attempt the runtime can hold reads back exactly. |
| RecordCodec.AuthorityReadsBack | src/authority.cpp:57-130 | Every authority vector reads back exactly. |
| RecordCodec.PolicyReadsBack | src/policy.cpp:128-191 | Every policy reads back exactly. |
| RecordCodec.TopologyReadsBack | src/policy.cpp:379-416 | Every topology reads back exactly. |
| RecordCodec.FenceReadsBack | src/authority.cpp:279-322 | Every fence record reads back exactly. |
| RecordCodec.EntryReadsBack | src/store.cpp:216-312 | Every index entry reads back exactly. |
| RecordCodec.ShortEntriesFit | src/engine.cpp:224-227 | A well-formed entry with at most 18 reasons always fits the index bound. |
| Snapshot.StateReadsBack | src/store.cpp:538-662 | Every well-formed durable state comes back exactly from its serialised form. |
| Snapshot.FrameReadsBack | src/store.cpp:25-100 | A framed payload comes back exactly. |
| Snapshot.SnapshotReadsBack | src/store.cpp:25-662 | A whole snapshot file comes back exactly. |
| PolicyText.ParseU64 | src/policy.cpp:30-47 | A decimal string is accepted exactly when it has 1 to 20 digits and its value fits in 64 bits, with that value. |
| PolicyText.ParsePolicy | src/policy.cpp:223-296 | The parsing loop computes the line-by-line reading, and leaves the caller's policy on refusal. |
| PolicyText.ConfidenceLines | src/policy.cpp:244-252 | What a line for the generation or a confidence does, under its literal name. |
| PolicyText.WindowLines | src/policy.cpp:253-258 | The same for the evidence window and the replacement capacity. |
| PolicyText.BoundLines | src/policy.cpp:275-283 | The same for the three bounds on attempts and candidates. |
| PolicyText.RequirementLines | src/policy.cpp:259-267 | The same for what is required of a replacement. |
| PolicyText.ConductLines | src/policy.cpp:268-289 | The same for what counts as failed, whether an effect must be verified, and the failover switch. |
| PolicyText.RuleLine | src/policy.cpp:271-274 | The same for the agreement rule. |
| PolicyText.BlanksAndComments | src/policy.cpp:227-235 | Blank lines, and comments wherever they start, change nothing. |
| PolicyText.MarginsMakeNoDifference | src/policy.cpp:231-241 | Blanks around a line and around its equals sign make no difference. |
| PolicyText.OtherNamesAreRefused | src/policy.cpp:290-292 | Any other name refuses the text. |
| PolicyText.TextReadsBack | src/policy.cpp:199-296 | Parsing a policy's printed text over any policy yields exactly that policy. |

## Left out

- Runs.AttemptsOnlyClimb: speaks of the state the medium describes, which is the live one unless a write has failed.
- Idempotency.OneGrantPerKey: covers one boot, and an index that evicts nothing; `IndexRuns.GrantedOnceForAll` covers whole runs for a grant whose call leaves the store working. `Eviction.EvictedKeyIsGrantedAgain` and `LostIndex.LostEntryIsGrantedAgain` show that neither premise can be dropped.
- IndexRuns.IndexedForGood: covers reopenings that keep the bound of the index.
- Definitions.RevocationWrites: covers a fence table with room for the new fences; retention of fences is stated apart (`Retention.NewestFencesStay`).
- Directives.ListingIs: assumes unique keys in the attempt table, which every run of the premise keeps (`Runs.ListingIsComplete`).
- The order of the fields inside record payloads, and the numbers of enumerations on disk, are stated by the encoders alone; the framings around them are stated byte by byte.
- Evidence tables are keyed by link and publisher together; an empty inner table is not told apart from an absent one.
- The coordinator's clock and its counters other than the lineage sequence, epoch and boot counters do not wrap around.
- Reason texts other than those a caller supplies are empty; reason codes are kept.
- Encoders and decoders other than the attempt's are functions on values rather than calls on the writer and reader.
- The journal file's total size bound and torn-tail repair being switched off are not part of the engine runs; strict replay is covered for the journal alone.
- Sockets, sessions, threads and polling: I/O around the engine.
- Real file calls: the medium is a record list or a byte sequence with append, truncation and atomic replacement.
- Inspection views, name tables, hexadecimal printing and canonical keys: lookups with no property that spans operations.
- Response, session and request codecs of the wire protocol, and digest builders: they repeat the record codecs.
- Generation of incarnations, process ids, fault injection and command-line tools.
