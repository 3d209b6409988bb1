# Bound Pair Credentials: verification of the high-availability layer

This project models the durable and distributed part of the pairing server in `packages/server/src` and proves
what its protocols promise over whole runs. `dafny verify dfyconfig.toml` checks all of it.

## What is modelled

| file | subject |
|---|---|
| `Pairs.dfy`, `PairReplica.dfy` | pairs, registrations and policies; database rows; sealed payloads; the replica's applier |
| `Outbox.dfy`, `Publisher.dfy`, `Replication.dfy` | the outbox, lease and checkpoint transactions; the drain loop; source, receiver, competing publishers and senders from elsewhere as one state machine |
| `*Laws.dfy`, `Verdicts.dfy` | for each of these parts, exactly when its operations succeed, what they answer and leave, in terms of stored fields, and that what should go through does |
| `PairStore.dfy`, `PairAuthority.dfy` | the transactional pair store: two source paths and the applier agree; the store object |
| `LeaseChain.dfy`, `Quorum.dfy`, `Cutover.dfy`, `Readiness.dfy`, `SingleWriter.dfy` | signed leases, the Redis majority fence, cutover history and epoch witness, readiness, and single-writer safety under clock drift |
| `HistoryText.dfy`, `Snapshot.dfy` | the canonical text of a history; snapshot build, import and promotion |
| `RedisGoverned.dfy`, `HttpReplay.dfy` | replay protection across state loss, and across clock drift |
| `Utf16.dfy`, `Framing.dfy`, `CanonicalJson.dfy`, `CanonicalWalk.dfy`, `OpDigest.dfy` | strings and UTF-8, length-prefixed framing, canonical JSON (the integer-only subset of sections 3.2.2 and 3.2.3 of RFC 8785) and the record digest |
| `SqlScanner.dfy`, `ServerLexing.dfy`, `EarlyCommit.dfy`, `Transactor.dfy` | the statement scanner against a declarative lexing of the documented forms, and that against the lexing of PostgreSQL; attempts, commit outcomes and retries |
| `AuditChain.dfy`, `PrincipalLedger.dfy` | hash-chained logs |
| `Authorization.dfy` | the memory store, pair lifecycle and request verification, interleaved |

Each SERIALIZABLE transaction and each Redis EVAL is one step, except that the governed Redis scripts can also die
between two of their writes. Runs are sequences of steps in any order. A hash is a datatype constructor, so it is
collision-free; a signature is membership in the set of what a key signed; sealing is a term that only its own
additional data opens. Clocks are numbers, with the skew a parameter. What the code does step by step on rows,
maps and counters is a class or a method, proved equal to a function; the lemmas are about that function.

## What the proofs found

- **Clock rounding in fencing.** The control database rounds its clock to the nearest millisecond
  (`bpc-ha-final.ts:671-676`) while the source rounds down. Fencing is safe on every schedule exactly when the
  drift between the two clocks is at most the two configured skews less half a millisecond
  (`SingleWriter.OverlapExactlyWhenUncovered`).
- **Clock rounding in hop replay.** The nonce store compares a rounded database clock but prunes with the exact
  one. A request is never accepted twice exactly when retention is at least twice the freshness, twice the skew
  and the check-to-insert delay plus one millisecond. The inequality the receiver demands
  (`http-outbox-transport.ts:529-536`) allows a delay equal to the safety margin only when it holds strictly.
- **FENCED retries.** After a cutover is ACTIVE a retry of its FENCED step always fails, because the witness still
  carries the FENCED digest (`Cutover.FencedRetry`). A cutover begun before genesis can neither proceed nor be
  undone (`Cutover.CutoverBeforeGenesisIsStuck`).
- **Snapshot capacity.** A bundle carries the whole history as one canonical value, whose budget is 10000 nodes and
  1 MiB (`ha-outbox-contract.ts:41-47`). Every row takes at least 10 nodes, so no source with a thousand rows can be
  built, verified, imported or promoted on, then or ever after; a thousand deletes of absent pairs are enough
  (`Snapshot.AThousandDeletes`). With well-formed names and times, build, import and promotion succeed exactly when
  the sums over the rows fit.
- **Imports after a promotion.** An import reads no fence (`bpc-ha-final.ts:756-768`). A node promoted on an empty
  history still accepts a bundle of older tokens; one promoted on a history with rows never does
  (`Snapshot.NothingOlderExactlyWhenTailed`).
- **Readiness.** The attestation is checked, stored and used in three transactions under the command id. Every
  cutover is activated by its own readiness exactly when command ids are never reused; with a repeated id a call in
  flight can activate the later cutover (`Readiness.AttestedExactlyWhenCommandsDiffer`).
- **Audit anchors.** The head of an empty log is never accepted as an anchor (`AuditChain.EarlierHeadsVerify`).
- **Statement scanner.** The executor takes one statement and no transaction control (`pg-transactor.ts:62-68`). The
  scanner lexes every accepted text as PostgreSQL does exactly when the code units in use can write no string with
  backslash escapes, no line comment that ends at a carriage return, and nothing past ASCII
  (`ServerLexing.AgreesExactly`). An accepted text can hold a COMMIT or END exactly under
  `EarlyCommit.CommitWritable`; ``SELECT E'\'';COMMIT--'`` is one (`EarlyCommit.SelectCommitIsBoth`).
- **Commit bounds.** Under every fault at most one attempt lands exactly when there are no retries, the default, or
  callbacks write their statements over code units in which no accepted text can commit; an error of a known outcome
  means nothing landed exactly in the second case (`Transactor.AtMostOnceExactly`, `Transactor.KnownOutcomeExactly`).
- **Names of epochs.** Three grammars for names differ (`bpc-ha-final.ts:22-23`, `ha-outbox-contract.ts:37`). A source
  epoch with a slash in it takes rows and builds bundles that no node accepts (`Snapshot.BuiltIsWellFormed`). A
  promotion to an epoch that begins with a punctuation mark is accepted, and the new source can then never append
  (`Snapshot.PromotedWritesExactlyWhenNamed`).
- **Governed Redis.** Acceptances of a nonce stay apart exactly when every loss that spares both markers loses no
  nonce, and loses the quarantine only where no loss at all loses a nonce
  (`RedisGoverned.ApartExactlyWhenSurvivable`).
- **Documentation.** `docs/HA_OUTBOX_CONTRACT.md:13-15` lists the digest fields without the fence token; the code
  frames it (`ha-outbox-contract.ts:242-250`), and so does the model.

## Model

| member | source | states |
|---|---|---|
| `SingleWriter.NoWriteAfterFenced` | packages/server/src/bpc-ha-final.ts:452-486 | Over every run in which the clock drift is covered: no transaction of an epoch commits at or after the FENCED receipt that ends the epoch, whichever prefixes of the guard's lease chain the source and the control database have been fed. |
| `SingleWriter.NoWriteBeforeActive` | packages/server/src/bpc-ha-final.ts:470-486 | A write of any epoch after the first is preceded by the ACTIVE receipt that opened that epoch. |
| `SingleWriter.SingleWriterPerEpoch` | packages/server/src/bpc-ha-final.ts:452-486 | Committed writes are ordered by epoch, and each epoch has one holder. |
| `SingleWriter.OverlapExactlyWhenUncovered` | packages/server/src/bpc-ha-final.ts:671-676 | No schedule lets a write overlap a FENCED receipt if and only if the real drift is at most the two configured skews less half a millisecond. |
| `SingleWriter.ChecksExactly` | packages/server/src/bpc-ha-final.ts:470-486 | A source transaction passes its check if and only if the last lease its database holds is active, is in every term the grant the process is bound to, is not within the skew of its expiry, and, past epoch 1, the cutover to the epoch is ACTIVE. |
| `LeaseChain.AcceptedExactlyWhenLawful` | packages/server/src/bpc-ha-final.ts:388-421 | A signed grant under a new command is accepted exactly when the extended history is lawful: contiguous, digest-linked, epochs never falling, one holder, lease id and window per epoch, expiry never falling within an epoch, nothing active after a revocation. |
| `LeaseChain.InstallsExactly` | packages/server/src/bpc-ha-final.ts:388-421 | Under a known command exactly the grant it was is accepted again; a new one exactly when it is well formed, signed, next in number and link, of no earlier epoch than the head, and constrained by every earlier grant of its epoch, whichever rows the queries look at. |
| `LeaseChain.EveryHistoryIsLawful` | packages/server/src/bpc-ha-final.ts:388-421 | Every sequence of installs from an empty table leaves a lawful history. |
| `LeaseChain.RevocationBoundsTheEpoch` | packages/server/src/bpc-ha-final.ts:388-421 | The expiry of a revoking grant bounds every active grant of its epoch, and all of those precede it under the same holder, lease id and window. |
| `LeaseChain.ReinstallIsANoOp` | packages/server/src/bpc-ha-final.ts:394-398 | Installing an installed command again, at any later time, changes nothing. |
| `LeaseChain.DatabasesHoldPrefixes` | packages/server/src/bpc-ha-final.ts:388-421 | A database fed from the one signed chain, in any order, with any losses and repeats, holds a prefix of it after the whole feed. |
| `LeaseChain.LeaseTables.InstallSourceLeaseGrant` | packages/server/src/bpc-ha-final.ts:388-421 | The transaction on the history and head tables has exactly the effect whose acceptance and invariants the lemmas above state, and an error leaves both tables alone. |
| `Quorum.EqualEpochWinnersAreIdentical` | packages/server/src/bpc-ha-final.ts:553-583 | With any number of members and any interleaving of claims, timeouts and late scripts, two records that each gained a majority at one epoch are identical. |
| `Quorum.LaterReadsAreNotSmaller` | packages/server/src/bpc-ha-final.ts:606-624 | Once a majority claimed epoch e, or a quorum read returned it, no read that starts later returns a smaller epoch. |
| `Quorum.GrantsExactly` | packages/server/src/bpc-ha-final.ts:553-583 | A member grants a claim if and only if it holds nothing, an earlier epoch or this very record; it then holds this record, and a refusal changes nothing. |
| `Quorum.HigherEpochWins` | packages/server/src/bpc-ha-final.ts:606-624 | A claim beyond every stored epoch that reaches a majority in time is won, a read that hears the members it reached returns its record, and the same claim sent again is won again. |
| `Quorum.ClaimsCanBeWon` | packages/server/src/bpc-ha-final.ts:606-624 | In any state of the machine a new claim that no member stands against, landing everywhere, is won, and a read answered everywhere returns its record. |
| `Quorum.MajoritiesMeet` | packages/server/src/bpc-ha-final.ts:606-607 | Two majorities of one membership share a member. |
| `Quorum.MajorityIsLeast` | packages/server/src/bpc-ha-final.ts:606-607 | A majority is the least number of members of which two must overlap, and in an odd membership it survives the failure of the smaller half. |
| `Quorum.OneWinner` | packages/server/src/bpc-ha-final.ts:613-623 | At most one record is the answer of a majority. |
| `Quorum.MajorityRecord` | packages/server/src/bpc-ha-final.ts:613-623 | The grouping loop returns a record exactly when a majority of all members, not of the answers, gave it. |
| `Quorum.BpcRedisQuorumFenceStore.Claim` | packages/server/src/bpc-ha-final.ts:608-612 | Without the witness no member is asked; otherwise a claim is won exactly when a majority it reached in time holds nothing, an earlier epoch or this record, and it leaves its record at every such member it reached, late or not; a win puts a majority at or past the epoch. |
| `Quorum.BpcRedisQuorumFenceStore.RawCurrent` | packages/server/src/bpc-ha-final.ts:613-623 | The read returns the record a majority of the membership answered in time, and nothing otherwise. |
| `Cutover.EveryRunIsLawful` | packages/server/src/bpc-ha-final.ts:665-676 | Every reachable control database verifies; target epochs are consecutive with phases in order; the witness epoch is the previous epoch of a PREPARING head and the target epoch afterwards. |
| `Cutover.LawfulStatesVerify` | packages/server/src/bpc-ha-final.ts:656 | The chain verification of a lawful state succeeds and returns the latest receipt. |
| `Cutover.HeadCommitsToHistory` | packages/server/src/bpc-ha-final.ts:656 | Two control databases that verify with one head hold the same receipts. |
| `Cutover.WitnessAcceptsExactlyTheNamed` | packages/server/src/bpc-ha-final.ts:688-694 | In a lawful state the witness accepts exactly genesis before any cutover, the record named by the FENCED receipt of the witness epoch, or the record named by the PREPARING head. |
| `Cutover.BeginRetry` | packages/server/src/bpc-ha-final.ts:665-669 | Beginning the head cutover again returns its head receipt and changes nothing, in every phase. |
| `Cutover.FencedRetry` | packages/server/src/bpc-ha-final.ts:671-676 | A FENCED retry with the same evidence returns the head while it is FENCED, and always fails once the head is ACTIVE. |
| `Cutover.CutoverBeforeGenesisIsStuck` | packages/server/src/bpc-ha-final.ts:665-687 | A cutover from epoch 0 begun before genesis never moves again in any later run, and genesis can no longer be installed. |
| `Cutover.BpcCutoverController.VerifyCutoverChain` | packages/server/src/bpc-ha-final.ts:656 | The loop over the ordered rows accepts exactly the linked histories whose last receipt is the head row. |
| `CutoverLaws.VerifiesExactly` | packages/server/src/bpc-ha-final.ts:656 | A database verifies if and only if its receipts in key order are sound and each linked to the one before, and its head row is the last of them. |
| `CutoverLaws.SortsByKey` | packages/server/src/bpc-ha-final.ts:656 | The rows verified are all the receipts, by target epoch and then by phase. |
| `Cutover.BpcCutoverController.BeginCutover` | packages/server/src/bpc-ha-final.ts:665-669 | The transaction takes the lawful PREPARING step or leaves the control database alone. |
| `CutoverLaws.BeginsExactly` | packages/server/src/bpc-ha-final.ts:665-669 | A cutover begins if and only if its numbers are sound, none is under way and it continues the last, and the witness stands at its previous epoch; only its linked PREPARING receipt is added. |
| `Cutover.BpcCutoverController.Fence` | packages/server/src/bpc-ha-final.ts:671-676 | The transaction takes the lawful FENCED step, on lease expiry and the quorum record, or leaves the control database alone. |
| `CutoverLaws.FencesExactly` | packages/server/src/bpc-ha-final.ts:671-676 | A PREPARING cutover is fenced if and only if the command is its own, the old lease is revoked as named and proven expired, and the majority holds the claim as named; the witness moves with the receipt. |
| `Cutover.BpcCutoverController.Activate` | packages/server/src/bpc-ha-final.ts:671-676 | The transaction takes the lawful ACTIVE step or leaves the control database alone. |
| `CutoverLaws.ActivatesExactly` | packages/server/src/bpc-ha-final.ts:671-676 | A cutover becomes ACTIVE if and only if the command is its own and it is past PREPARING; a repeat changes nothing. |
| `CutoverLaws.BootstrapsExactly` | packages/server/src/bpc-ha-final.ts:683-687 | Genesis is installed if and only if the record has epoch 1 and the witness is unset or holds exactly this record. |
| `CutoverLaws.CutoversComplete` | packages/server/src/bpc-ha-final.ts:665-678 | A sound cutover in turn, with all the evidence there, completes in three steps: ACTIVE is the head, the witness stands at the target epoch, and every sound next cutover can begin. |
| `CutoverLaws.NoReceiptTwice` | packages/server/src/bpc-ha-final.ts:665-676 | On any control database, lawful or not, an added receipt has an epoch and phase no other has. |
| `CutoverLaws.FencingNeedsTheWitness` | packages/server/src/bpc-ha-final.ts:671-676 | On any control database a FENCED receipt is added only while the witness stands at the epoch it ends. |
| `Readiness.EveryActivationIsAttested` | packages/server/src/bpc-ha-final.ts:678 | When every cutover begins under a new command id, each ACTIVE receipt has a stored readiness attestation that binds exactly the FENCED receipt before it, for every interleaving of the three transactions of concurrent calls. |
| `Readiness.AttestedExactlyWhenCommandsDiffer` | packages/server/src/bpc-ha-final.ts:665-678 | For cutovers begun under the command ids of any list, every interleaving leaves each ACTIVE receipt with its own stored readiness if and only if the ids are pairwise distinct. |
| `Readiness.RepeatedCommandRuns` | packages/server/src/bpc-ha-final.ts:678 | For any list with a repeated command id, a run in which a call that stored the earlier readiness activates the later cutover. |
| `ReadinessLaws.ChecksExactly` | packages/server/src/bpc-ha-final.ts:678 | A call passes its check if and only if its attestation is independent and about the FENCED head in every field. |
| `ReadinessLaws.StoresExactly` | packages/server/src/bpc-ha-final.ts:678 | An attestation is stored if and only if it passed the check and no other is on file for its command. |
| `ReadinessLaws.StoreAgain` | packages/server/src/bpc-ha-final.ts:678 | A repeated store of the attestation on file changes nothing. |
| `ReadinessLaws.ReadyCallsActivate` | packages/server/src/bpc-ha-final.ts:678 | A call whose attestation is about the FENCED head, with no other on file for the command, makes it ACTIVE. |
| `Snapshot.SnapshotRoundTrip` | packages/server/src/bpc-ha-final.ts:712-768 | At the locked head of any reachable source the bundle is built if and only if stream name and clock are valid and the rows fit the canonicalization budget, and imports into an empty genesis receiver if and only if its manifest is well formed and the rows fit; the import then reproduces the source tables with the whole history applied. |
| `Snapshot.HeadBuildsExactlyWhenFitting` | packages/server/src/bpc-ha-final.ts:712-727 | Building at the head, under a valid stream name and clock, succeeds exactly when every row can be written and the sums of nodes and bytes over the rows stay within the budget. |
| `PromotionLaws.BuildsExactly` | packages/server/src/bpc-ha-final.ts:712-727 | A snapshot is built if and only if it is asked for at the sequence of the locked checkpoint, the history is complete from 1 and fits, and name and clock are valid; the bundle carries the records, tables and names of the source. |
| `Snapshot.ConformantHeadBuilds` | packages/server/src/bpc-ha-final.ts:712-727 | For rows whose digests and payloads keep the bounds of normalizeSealed, with ciphertexts no longer than the longest string that can be digested, the two sums alone decide. |
| `Snapshot.BuiltIsWellFormed` | packages/server/src/bpc-ha-final.ts:733-738 | A built bundle has a well-formed manifest if and only if the source epoch matches ID_RE, which for a source that ever took a row means that the epoch has no slash. |
| `Snapshot.OverBudgetForever` | packages/server/src/bpc-ha-final.ts:712-727 | Once a history is over the budget, no later head of that source can be built. |
| `Snapshot.NoBundleOfAThousandRows` | packages/server/src/bpc-ha-final.ts:712-727 | No source with a thousand rows has a bundle, whatever the rows are. |
| `Snapshot.AThousandDeletes` | packages/server/src/bpc-ha-final.ts:712-727 | A thousand deletes of an absent pair, on a stream whose names can carry rows, reach such a source; building fails there and after any further operations. |
| `Snapshot.ImportedIsReadyForTheTail` | packages/server/src/bpc-ha-final.ts:756-768 | The source row that follows the bundle applies at the importing receiver and leaves it with the source tables. |
| `Snapshot.PromotionMeans` | packages/server/src/bpc-ha-final.ts:770-805 | A promotion that changes a node found the complete applied digests and the state of the bundle there and a smaller fence token. |
| `PromotionLaws.PromotesExactly` | packages/server/src/bpc-ha-final.ts:770-805 | A first promotion to an epoch goes through if and only if the bundle verifies, the guard signed this FENCED receipt, the receipt is fenced and equal in stream, target epoch, source epoch, manifest, final sequence and state, the receiver holds exactly the bundle, its fence is behind the epoch, and its source side has no rows; what it leaves is spelled out. |
| `PromotionLaws.RetriesExactly` | packages/server/src/bpc-ha-final.ts:785-790 | A retry of a recorded promotion succeeds if and only if manifest and receipt are the recorded ones and fence and source epoch are as the promotion left them; it changes nothing. |
| `Snapshot.ExactRetryChangesNothing` | packages/server/src/bpc-ha-final.ts:787-788 | Repeating a promotion that succeeded succeeds and changes nothing. |
| `Snapshot.CaughtUpReplicaPromotes` | packages/server/src/bpc-ha-final.ts:770-805 | A receiver that caught up in any replication run promotes on the bundle of that source head if and only if manifest and target epoch are well formed and the history fits the budget. |
| `Snapshot.PromotedWritesExactlyWhenNamed` | packages/server/src/bpc-ha-final.ts:770-805 | After a promotion the first append of a sanitized mutation under the new token goes through if and only if stream and target epoch match the record header grammar, which for the epoch means that it begins with a letter or digit. |
| `Snapshot.NothingOlderExactlyWhenTailed` | packages/server/src/bpc-ha-final.ts:756-805 | After a promotion, no run of deliveries, local operations, imports, fence steps and further promotions applies a record with an older token, if and only if the promoted node had applied at least one row, or no bundle with a row can carry its stream and epoch names. |
| `Snapshot.OldBundleImportsExactly` | packages/server/src/bpc-ha-final.ts:756-768 | A bundle from before the promotion imports exactly into a node whose names it can carry, with checkpoint 0, no pairs and no applied row in its range. |
| `Snapshot.ReceiversStartEmpty` | packages/server/src/bpc-ha-final.ts:756-768 | A receiver of a replication run that has applied nothing holds nothing. |
| `Snapshot.VerifyBundle` | packages/server/src/bpc-ha-final.ts:741-751 | The loop accepts exactly the signed bundles with a well-formed manifest whose records fit the canonicalization budget, have conformant headers and are complete, in order, sanitized and digest-consistent. |
| `PromotionLaws.VerifiesExactly` | packages/server/src/bpc-ha-final.ts:733-751 | A bundle verifies if and only if a signed, well-formed manifest names its length and its very records, they fit the budget, and each is conformant, sanitized and genuine at its place. |
| `PromotionLaws.ManifestNamesOneBundle` | packages/server/src/bpc-ha-final.ts:741-751 | Two bundles that verify under one manifest are the same. |
| `Snapshot.ApplyRecords` | packages/server/src/bpc-ha-final.ts:756-768 | The import loop computes the replay of the bundle and its applied-history rows, and stops at the first refused record. |
| `Snapshot.ImportPairSnapshotBundle` | packages/server/src/bpc-ha-final.ts:756-768 | The import either performs the round trip proved above or rolls back completely. |
| `PromotionLaws.ImportsExactly` | packages/server/src/bpc-ha-final.ts:756-768 | An import succeeds if and only if the bundle verifies, the receiver is an empty genesis of its stream and epoch without applied rows in its range, and the replay ends in the signed state; what it leaves is spelled out. |
| `Snapshot.NodeDatabase.PromoteReceiverToSource` | packages/server/src/bpc-ha-final.ts:770-805 | Fence row, source checkpoint and receipt change together exactly when the promotion conditions hold, and not at all otherwise. |
| `Framing.PartsAreUniquelyDecodable` | packages/server/src/bpc-ha-final.ts:42-51 | Equal framings come only from equal part lists, null distinct from the empty text. |
| `Framing.FrameLoop` | packages/server/src/bpc-ha-final.ts:42-51 | The chunk-building loop produces the framing for which unique decodability is proved, or fails on a length that does not fit. |
| `Replication.ExactlyOnceInOrder` | packages/server/src/ha-outbox-pg.ts:967-1394 | Over every interleaving of commits, competing drains, lease expiry, crashes, lost, duplicated, reordered and altered deliveries: the receiver tables are the replay of source rows 1 to its checkpoint, each applied once and in order; acknowledged rows are a prefix the receiver applied under the same digest; a caught-up receiver has the source tables. |
| `Replication.FaithfulRecordsAreAccepted` | packages/server/src/ha-outbox-pg.ts:1342-1394 | In every reachable state the verdict on a faithful record is determined by fence and position alone: fence mismatch, duplicate, applied when due, gap; never a fork, stale or unsanitized refusal. |
| `Replication.RecordsFromElsewhereChangeNothing` | packages/server/src/ha-outbox-pg.ts:1373-1377 | In every run a genuine record of another source epoch or stream, whoever sends it, leaves the receiver as it is, and under the current fence is refused for its epoch. |
| `ReplicationLaws.FaithfulRoundsAcknowledge` | packages/server/src/ha-outbox-pg.ts:1214-1302 | After every run, whenever the lease is free and the next row is due, a faithful round under a new token acknowledges it: applied now, or found applied when an earlier receipt was lost. |
| `Replication.QuarantineIsABarrier` | packages/server/src/ha-outbox-pg.ts:1161-1212 | Once a row is quarantined, no later step acknowledges it or any row after it. |
| `Replication.BacklogIsBounded` | packages/server/src/ha-outbox-pg.ts:992-994 | Rows neither acknowledged nor quarantined never outnumber the admission bound. |
| `Replication.RunGrows` | packages/server/src/ha-outbox-pg.ts:967-1302 | No step removes a row, changes a record or takes back a mark. |
| `Replication.NextKeeps` | packages/server/src/ha-outbox-pg.ts:967-1394 | Every step preserves the replication invariant. |
| `Outbox.AppendKeepsSourceOk` | packages/server/src/ha-outbox-pg.ts:967-1019 | An append adds exactly one record, the next in sequence, keeps the acknowledged prefix and respects the admission bound. |
| `Outbox.AcknowledgeKeepsSourceOk` | packages/server/src/ha-outbox-pg.ts:1269-1282 | An acknowledgement of the first open row moves the acknowledged prefix by exactly one row. |
| `Outbox.QuarantineKeepsSourceOk` | packages/server/src/ha-outbox-pg.ts:1181-1212 | A quarantine of the first open row leaves the acknowledged prefix and every record alone. |
| `Outbox.PgSourceDatabase.AppendInTx` | packages/server/src/ha-outbox-pg.ts:967-1019 | The append transaction against the tables: fence, admission, allocation and row together, or nothing. |
| `Verdicts.AppendsExactly` | packages/server/src/ha-outbox-pg.ts:967-1019 | An append goes through if and only if the mutation is sanitized and of the stream, the fence is the persisted one, the backlog is below the bound and the header conformant; stale fence and backpressure have exactly their conditions. |
| `Verdicts.PendingCountsOpenRows` | packages/server/src/ha-outbox-pg.ts:992-994 | Admission counts exactly the rows with neither mark. |
| `Outbox.PgSourceDatabase.AcquireLease` | packages/server/src/ha-outbox-pg.ts:1137-1151 | The lease is taken exactly when it is free or has expired. |
| `Outbox.PgSourceDatabase.ReleaseLease` | packages/server/src/ha-outbox-pg.ts:1153-1158 | Only the owner of the lease gives it up. |
| `Verdicts.LeaseExcludes` | packages/server/src/ha-outbox-pg.ts:1137-1158 | A lease taken excludes every other drain until it has run out, or its own token gives it back. |
| `Outbox.PgSourceDatabase.NextDeliverableInTx` | packages/server/src/ha-outbox-pg.ts:1161-1179 | The holder reads the lowest unacknowledged row, unless that row is quarantined. |
| `Verdicts.DeliversTheLowest` | packages/server/src/ha-outbox-pg.ts:1161-1179 | The next row is exactly the lowest one not acknowledged, for the holder of the lease, unless it is quarantined. |
| `Outbox.PgSourceDatabase.AckRow` | packages/server/src/ha-outbox-pg.ts:1269-1282 | The acknowledgement marks exactly the delivered row under its digest and the current lease, or nothing. |
| `Verdicts.AcknowledgesExactly` | packages/server/src/ha-outbox-pg.ts:1269-1282 | A row is acknowledged if and only if the lease is held, the row is unmarked and carries the delivered digest; nothing else changes. |
| `Outbox.PgSourceDatabase.QuarantineRow` | packages/server/src/ha-outbox-pg.ts:1181-1212 | The quarantine entry and the mark on the row change together, or nothing does. |
| `Verdicts.QuarantinesExactly` | packages/server/src/ha-outbox-pg.ts:1181-1212 | A row is quarantined if and only if the lease is held, the row is unmarked and no other verdict is on file; nothing else changes. |
| `Verdicts.BoundExactly` | packages/server/src/ha-outbox-pg.ts:1256-1268 | A receipt is bound to a record if and only if it carries its stream, epoch, sequence and digest. |
| `Outbox.PgReceiverDatabase.VerifyAndApplyInTx` | packages/server/src/ha-outbox-pg.ts:1342-1394 | The receiver decision, its applied history, checkpoint and tables change together, or nothing does. |
| `Verdicts.CurrentVerdicts` | packages/server/src/ha-outbox-pg.ts:1350-1394 | A conformant, sanitized, genuine record under the current fence is refused for its epoch if and only if the epochs differ, as a fork, stale, a gap or a duplicate exactly by its place and what was applied there, and applied at the next place with the state spelled out. |
| `Verdicts.StrangersAreRefused` | packages/server/src/ha-outbox-pg.ts:1350-1371 | A record of another stream or with a bad header throws; an unsanitized one, one without its own digest and one under another fence are refused as such, each exactly then. |
| `Verdicts.AcceptedMeans` | packages/server/src/ha-outbox-pg.ts:1350-1394 | An applied or duplicate verdict means the record is conformant, genuine, of the receiver's own stream, epoch and fence, at its place or already applied there. |
| `Verdicts.RefusalsEndExactlyWhenTransient` | packages/server/src/ha-outbox-pg.ts:1284-1297 | Over all later runs of a receiver a refused record can still be accepted if and only if its refusal is one of the two that the publisher retries. |
| `Publisher.PgDurablePublisher.DrainOnce` | packages/server/src/ha-outbox-pg.ts:1214-1302 | However the loop ends, the acknowledged prefix grew row by row, each by its own authentic bound receipt; at most the next row was quarantined, by a terminal verdict on it; the counters say so exactly; it throws only at a row that is corrupt or whose delivery failed, lost the lease or came back unverifiable; the lease is gone afterwards. |
| `Publisher.PgDurablePublisher.DeliverNext` | packages/server/src/ha-outbox-pg.ts:1218-1297 | What each outcome of one round establishes about the rows, the lease and the delivery. |
| `Publisher.PgDurablePublisher.Park` | packages/server/src/ha-outbox-pg.ts:1181-1212 | A terminal refusal quarantines the row that was delivered and halts the stream; under an own lease it cannot fail. |
| `Snapshot.OlderTokensAreDead` | packages/server/src/ha-outbox-pg.ts:985-990 | After a promotion, in every later state of the node, a delivered record with an older fence token changes nothing, and a local operation that presents an older token writes nothing. |
| `CanonicalJson.ParseReturnsTheValue` | packages/server/src/ha-outbox-pg.ts:79-87 | Parsing a canonical text returns the value with its keys in canonical order and nothing left over. |
| `PairStore.LogRefinement` | packages/server/src/pg-durable-pair-store.ts:243-357 | After any sequence of operations from empty tables, by the plain or the governed path, the pair and pending tables equal the replay of the store's own outbox rows through the replica applier, and the applier refuses no prefix of them. |
| `PairStore.OperationAgrees` | packages/server/src/pg-durable-pair-store.ts:243-357 | For every operation that writes, the plain statements, the governed function and the replica applier leave the same tables. |
| `PairStore.CommitKeepsLogIsState` | packages/server/src/pg-durable-pair-store.ts:244-263 | One committed operation keeps the log and the tables in step and appends at most one row. |
| `PairStore.ReplayPrefix` | packages/server/src/pg-durable-pair-store.ts:357 | A log that replays completely replays every prefix completely. |
| `HistoryText.WrittenRecord` | packages/server/src/pg-durable-pair-store.ts:164-187 | The JSON of a row has the node count of its mutation kind, and a row with a conformant header, within the bounds of normalizeSealed and of the longest string, can be written. |
| `PairReplica.OpenSealedPair` | packages/server/src/pg-durable-pair-store.ts:196-213 | What is sealed opens to its normal form under the same additional data and under no other. |
| `NormalizerLaws.KeysAre256Bits` | packages/server/src/pg-durable-pair-store.ts:40-46 | A key is 43 base64url symbols whose number is 256 bits followed by two zeros. |
| `NormalizerLaws.RegistrationsTaken` | packages/server/src/pg-durable-pair-store.ts:121-146 | A registration is normalized if and only if its name, keys and numbers keep their bounds and it has a canary class exactly as a ghost. |
| `NormalizerLaws.PairsTaken` | packages/server/src/pg-durable-pair-store.ts:147-164 | A pair is normalized if and only if its registration is, its id is of base64url symbols and its counters and times keep their bounds; only an absent kind is filled in. |
| `PairAuthority.PgTransactionalPairStore.constructor` | packages/server/src/pg-durable-pair-store.ts:233-242 | A new store is the empty authority the refinement starts from. |
| `PairAuthority.PgTransactionalPairStore.Write` | packages/server/src/pg-durable-pair-store.ts:246 | The outbox row and the table change commit together, or neither does. |
| `PairAuthority.PgTransactionalPairStore.ChangeStatusIf` | packages/server/src/pg-durable-pair-store.ts:247-255 | A conditional status change writes its mutation and its row together, and nothing when the condition fails. |
| `PairAuthority.PgTransactionalPairStore.Set` | packages/server/src/pg-durable-pair-store.ts:258 | Storing a pair commits as the effect proved to agree with the replica. |
| `PairAuthority.PgTransactionalPairStore.Delete` | packages/server/src/pg-durable-pair-store.ts:259 | Deleting a pair commits as the effect proved to agree with the replica. |
| `PairAuthority.PgTransactionalPairStore.SetPending` | packages/server/src/pg-durable-pair-store.ts:262 | Storing a pending registration commits as the effect proved to agree with the replica. |
| `PairAuthority.PgTransactionalPairStore.DeletePending` | packages/server/src/pg-durable-pair-store.ts:263 | Deleting a pending registration commits as the effect proved to agree with the replica. |
| `StoreLaws.SetsAndDeletes` | packages/server/src/pg-durable-pair-store.ts:258-263 | Exactly a valid argument is stored, or the named row removed, when the outbox admits it. |
| `PairAuthority.PgTransactionalPairStore.AtomicMutate` | packages/server/src/pg-durable-pair-store.ts:264-279 | The callback sees the stored pair and its result commits as the effect proved to agree with the replica. |
| `StoreLaws.MutatesExactly` | packages/server/src/pg-durable-pair-store.ts:264-279 | A callback's pair is stored if and only if it is valid, keeps its id and is admitted; a callback that throws or keeps changes nothing. |
| `PairAuthority.PgTransactionalPairStore.ApprovePending` | packages/server/src/pg-durable-pair-store.ts:280-300 | An approval removes the pending entry and inserts the pair in one effect proved to agree with the replica. |
| `StoreLaws.ApprovalsAgree` | packages/server/src/pg-durable-pair-store.ts:280-300 | An approval goes through if and only if it is well formed, the memory store would approve it and the outbox admits it; it answers false exactly when the pending entry is not the expected one. |
| `StoreLaws.ApprovalStatements` | packages/server/src/pg-durable-pair-store.ts:280-300 | On any tables, the store's statements for an approval check the entry's time and the new id, the governed function the whole row, the bound and the id. |
| `PairAuthority.PgTransactionalPairStore.RotatePair` | packages/server/src/pg-durable-pair-store.ts:301-316 | A rotation marks the old pair and inserts the new one in one effect proved to agree with the replica. |
| `StoreLaws.RotationsAgree` | packages/server/src/pg-durable-pair-store.ts:301-316 | A rotation answers whether the memory store would rotate, and leaves the rows of the pairs that store would leave; a malformed one fails. |
| `StoreLaws.RotationStatements` | packages/server/src/pg-durable-pair-store.ts:301-316 | On any tables, both paths refuse a stored new id, and the governed function also an old row that is not the expected one. |
| `PairAuthority.PgTransactionalPairStore.ClaimSuccessfulUse` | packages/server/src/pg-durable-pair-store.ts:317-344 | A use claim, with its expiry side effects, commits as the effect proved to agree with the replica. |
| `StoreLaws.ClaimsAgree` | packages/server/src/pg-durable-pair-store.ts:317-344 | A claim by either path answers what the memory store answers on the same pairs and leaves the rows of its pairs; it fails exactly on malformed arguments, a counter at the largest safe integer, or a write the outbox does not admit. |
| `PairAuthority.PgTransactionalPairStore.ExpireIfElapsed` | packages/server/src/pg-durable-pair-store.ts:345 | An expiry commits as the effect proved to agree with the replica. |
| `PairAuthority.PgTransactionalPairStore.ExpireIfUsageExhausted` | packages/server/src/pg-durable-pair-store.ts:346 | An expiry by usage commits as the effect proved to agree with the replica. |
| `PairAuthority.PgTransactionalPairStore.LockIfFailureThreshold` | packages/server/src/pg-durable-pair-store.ts:347 | A lock commits as the effect proved to agree with the replica. |
| `StoreLaws.TransitionsAgree` | packages/server/src/pg-durable-pair-store.ts:345-347 | The three conditional changes of status change what the memory store's change, and answer whether they did. |
| `StoreLaws.MalformedTransitionsFail` | packages/server/src/pg-durable-pair-store.ts:345-347 | A malformed id, time or threshold fails and changes nothing. |
| `RedisGoverned.AcceptancesAreApart` | packages/server/src/redis-governed.ts:78-204 | For verifiers sharing one configuration, with a quarantine at least as long as the retention as the factory derives it, over every interleaving of scripts, crashes inside scripts, expiries and losses that take a marker, two FRESH answers for one nonce are more than the retention apart. |
| `RedisGoverned.ScriptsNeverShortenTheQuarantine` | packages/server/src/redis-governed.ts:78-204 | Neither script shortens a live quarantine, even when it dies in the middle. |
| `RedisGoverned.QuarantineIsNeverShortened` | packages/server/src/redis-governed.ts:84-90 | The write both scripts extend the quarantine by never ends it earlier. |
| `RedisGoverned.ReconcilePreserves` | packages/server/src/redis-governed.ts:78-139 | Wherever RECONCILE dies, nonces and quarantines live on and a missing marker is not established without a full quarantine. |
| `RedisGoverned.ConsumePreserves` | packages/server/src/redis-governed.ts:141-204 | The same of CONSUME. |
| `RedisGoverned.FreshMeans` | packages/server/src/redis-governed.ts:163-203 | FRESH needs both markers, no live quarantine and no live nonce, and leaves the nonce recorded for the retention. |
| `RedisGoverned.MarkedAnswers` | packages/server/src/redis-governed.ts:163-203 | With both markers, matching configuration and epoch and no live quarantine, the reply is REPLAY if and only if the nonce key lives, else FRESH unless the server dies; only a fresh nonce changes anything. |
| `RedisGoverned.RefusedStatuses` | packages/server/src/redis-governed.ts:141-204 | Each other status of the consume script has exactly its condition on the stored markers and quarantine. |
| `RedisGoverned.RefusalsQuarantine` | packages/server/src/redis-governed.ts:141-204 | A refusal the server lives to write leaves a quarantine of at least the configured length, and reports its epoch and remaining time. |
| `RedisGoverned.ReconcileAnswers` | packages/server/src/redis-governed.ts:78-139 | A reconciliation the server lives through answers exactly by what it found, leaves both markers of this process in place unless another configuration stands there, and a full quarantine unless all was as expected. |
| `RedisGoverned.ReconcilesToItself` | packages/server/src/redis-governed.ts:78-139 | A process that finds everything as expected changes nothing. |
| `RedisGoverned.MarkersAreNotReplaced` | packages/server/src/redis-governed.ts:78-204 | A marker that stands is never replaced. |
| `RedisGoverned.NoLengthNoScript` | packages/server/src/redis-governed.ts:78-204 | Without a quarantine length neither script does anything. |
| `RedisGoverned.ApartExactlyWhenSurvivable` | packages/server/src/redis-governed.ts:78-204 | For any set of losses, every run that suffers only those keeps acceptances of a nonce more than the retention apart, if and only if each loss that spares both markers loses no nonce, and loses the quarantine only where no loss loses a nonce. |
| `RedisGoverned.LossWithoutAMarkerReplays` | packages/server/src/redis-governed.ts:141-204 | Any loss of a nonce that spares both markers lets it be accepted twice at once. |
| `RedisGoverned.LostQuarantineReplays` | packages/server/src/redis-governed.ts:78-204 | A nonce lost with a marker and, after the reconcile, a quarantine lost without one lets the nonce be accepted twice at once. |
| `RedisGoverned.SharedContinuityGate.Apply` | packages/server/src/redis-governed.ts:277-283 | A malformed epoch is refused and a stopped gate stays as it is; otherwise the gate takes the epoch and waits out the time to live. |
| `RedisGoverned.SharedContinuityGate.FailClosed` | packages/server/src/redis-governed.ts:285-288 | The gate closes without a limit and keeps its epoch. |
| `RedisGoverned.CheckAndConsume` | packages/server/src/redis-governed.ts:316-376 | With a faithful reply a nonce is accepted exactly on FRESH and refused as a replay exactly on REPLAY; acceptance is recorded at the server; any other reply quarantines the gate exactly when its status is one of the seven quarantining ones, its epoch is well formed and its TTL is positive, and closes the gate otherwise; a malformed replacement epoch throws before the script is sent. |
| `HttpReplay.NoReplayExactlyWhenCovered` | packages/server/src/http-outbox-transport.ts:295-311 | For requests that reach the store within a given delay of their freshness check, no signed request is accepted twice, whatever other requests prune, if and only if retention exceeds twice the freshness, twice the skew and the delay. |
| `HttpReplay.AdmittedCovers` | packages/server/src/http-outbox-transport.ts:529-536 | The demanded inequality is that for every delay shorter than the safety margin; a delay equal to the margin is covered exactly when retention exceeds the demanded minimum. |
| `HttpReplay.AcceptedExactlyWhenNew` | packages/server/src/http-outbox-transport.ts:295-311 | In every run a request is accepted if and only if it is fresh, the clocks agree and its nonce is new: no earlier use that was new left a row which every database clock since found unexpired. |
| `HttpReplay.UnusedNoncesAreNew` | packages/server/src/http-outbox-transport.ts:295-311 | A nonce that no earlier step brought to the table is always new. |
| `HttpReplay.NewAgainAfterRetention` | packages/server/src/http-outbox-transport.ts:295-311 | With nothing in between, a nonce is new again exactly when the retention has run out on the database clock. |
| `HttpReplay.ReplayedTwice` | packages/server/src/http-outbox-transport.ts:563-573 | Outside the bound, a concrete schedule accepts one request twice. |
| `HttpReplay.HttpOutboxReceiver.CheckAndStoreInTx` | packages/server/src/http-outbox-transport.ts:295-311 | Fails closed exactly on disagreeing clocks; otherwise a nonce is new exactly when no stored row of it is unexpired, expired rows go, and a new row lasts the retention. |
| `HttpReplay.HttpOutboxReceiver.Handle` | packages/server/src/http-outbox-transport.ts:563-573 | Freshness, signature, clocks and table are checked in that order; a request is accepted exactly when all hold and no stored row of its nonce is unexpired. |
| `Framing.FramingIsUniquelyDecodable` | packages/server/src/http-outbox-transport.ts:65-73 | Equal framings come only from equal field lists. |
| `CanonicalJson.SameTextExactlyWhenSame` | packages/server/src/ha-outbox-contract.ts:129-193 | Two values print to the same text exactly when they are the same value; the insertion order of keys never shows. |
| `CanonicalJson.ParseInvertsRaw` | packages/server/src/ha-outbox-contract.ts:101-193 | A JSON parser reads back every printed value, whatever delimiter follows it. |
| `CanonicalJson.CanonIsEquality` | packages/server/src/ha-outbox-contract.ts:184-187 | Sorting keys recursively identifies exactly the equal values. |
| `CanonicalWalk.Canonicalize` | packages/server/src/ha-outbox-contract.ts:129-193 | The walk returns the canonical text of exactly the values within the depth, node, string and byte budgets, and throws on all others. |
| `HistoryText.AcceptedExactlyWhenFitting` | packages/server/src/ha-outbox-contract.ts:129-193 | A history is accepted exactly when its rows can be written, one plus the node counts of the rows is at most 10000, and the bytes of the rows with their separators are at most 1 MiB. |
| `HistoryText.LongerFitsLess` | packages/server/src/ha-outbox-contract.ts:129-193 | A history that does not fit never fits again when it grows. |
| `CanonicalWalk.AcceptedOutputIsBounded` | packages/server/src/ha-outbox-contract.ts:129-193 | Every accepted output is well-formed UTF-16 and within the byte budget in UTF-8. |
| `JsonLaws.AcceptedByParts` | packages/server/src/ha-outbox-contract.ts:101-193 | A value has a canonical text if and only if it is nested at most 64 deep, its strings and keys are well formed and at most 65536 bytes, no key is `__proto__`, numbers are safe integers, and nodes and bytes stay within 10000 and 1 MiB. |
| `JsonLaws.CanonicalKeysAreInOrder` | packages/server/src/ha-outbox-contract.ts:184-187 | In the canonical form every key precedes every later one at their first differing code unit. |
| `JsonLaws.ExampleOrder` | packages/server/src/ha-outbox-contract.ts:184-187 | The sample keys of section 3.2.3 of RFC 8785 stand in the order given there. |
| `JsonLaws.EscapesAreShortest` | packages/server/src/ha-outbox-contract.ts:101-112 | Exactly the units below a space, the quotation mark and the backslash are escaped, in two letters where there is such a form and with lower-case digits otherwise. |
| `CanonicalWalk.JcsString` | packages/server/src/ha-outbox-contract.ts:101-112 | The escaping loop yields the quoted text of exactly the strings without lone surrogates within the string budget. |
| `CanonicalWalk.Walker.Push` | packages/server/src/ha-outbox-contract.ts:132-136 | A piece is pushed exactly when the running byte count stays within its budget, and nothing else changes. |
| `CanonicalWalk.Walker.Walk` | packages/server/src/ha-outbox-contract.ts:137-190 | From any running totals, the walk succeeds exactly when the value is acceptable and both totals stay within budget, and then adds exactly its nodes, bytes and text. |
| `CanonicalWalk.Walker.WalkItems` | packages/server/src/ha-outbox-contract.ts:151-168 | The same of an array. |
| `CanonicalWalk.Walker.WalkFields` | packages/server/src/ha-outbox-contract.ts:170-187 | The same of an object, its keys sorted. |
| `Utf16.NoLoneSurrogate` | packages/server/src/ha-outbox-contract.ts:84-94 | The loop accepts exactly the well-formed strings. |
| `Utf16.DecodeInvertsUtf8` | packages/server/src/ha-outbox-contract.ts:97-99 | Decoding the UTF-8 bytes of a well-formed string returns it. |
| `Utf16.Utf8IsInjective` | packages/server/src/ha-outbox-contract.ts:84-94 | Strings without lone surrogates are told apart by their bytes. |
| `Utf16.LoneSurrogatesCollide` | packages/server/src/ha-outbox-contract.ts:84-94 | Without that check two different strings have the same bytes. |
| `Framing.FramedExactlyWhenFitting` | packages/server/src/ha-outbox-contract.ts:196-204 | A framing exists exactly when every length fits in 32 bits; a longer one is refused, not wrapped. |
| `Framing.DecimalRoundTrip` | packages/server/src/ha-outbox-contract.ts:247 | Decimal text names one number. |
| `OpDigest.DigestedExactlyWhenConformant` | packages/server/src/ha-outbox-contract.ts:222-257 | A digest is defined for exactly the conformant headers. |
| `HeaderLaws.HeadersAgree` | packages/server/src/ha-outbox-contract.ts:222-319 | A record has a digest if and only if its header passes the outbox check, two grammars stated apart, and its mutation can be canonicalized. |
| `OpDigest.PreimageNamesTheRecord` | packages/server/src/ha-outbox-contract.ts:242-257 | Equal preimages force equal stream, epoch, sequence and fence token and the same mutation. |
| `SqlScanner.AssertExecutorStatement` | packages/server/src/pg-transactor.ts:57-86 | The scanner terminates and accepts exactly the texts whose reference lexing is one non-empty statement with at most a final semicolon and a first word outside the forbidden set. |
| `ScannerLaws.ControlIsRefused` | packages/server/src/pg-transactor.ts:57-86 | A statement that begins with one of the fourteen control words in any case is refused, whatever white space and comments stand before it. |
| `ScannerLaws.SecondStatementsAreRefused` | packages/server/src/pg-transactor.ts:78-85 | A text with anything but white space and comments after a semicolon, or with nothing else in it, is refused. |
| `SqlScanner.LexingIsUnique` | packages/server/src/pg-transactor.ts:69-86 | A text has at most one reference lexing. |
| `SqlScanner.NextToken` | packages/server/src/pg-transactor.ts:73-83 | One step of the scanner finds the token that starts at a position, and finds none exactly when none starts there. |
| `SqlScanner.ScanBlockComment` | packages/server/src/pg-transactor.ts:77 | A nested block comment ends where its reference form ends, or has no end. |
| `ScannerLaws.CommentsNest` | packages/server/src/pg-transactor.ts:77 | A comment inside a comment leaves the end of the outer one where it would be without it. |
| `ScannerLaws.PlainCommentEnds` | packages/server/src/pg-transactor.ts:77 | A comment without another in it ends at its first closing pair. |
| `SqlScanner.ScanQuoted` | packages/server/src/pg-transactor.ts:79 | A quoted form with doubled quotes ends where its reference form ends, or has no end. |
| `SqlScanner.ScanDollarQuoted` | packages/server/src/pg-transactor.ts:80 | A dollar quote ends at the first repetition of its tag, or has no end. |
| `SqlScanner.MatchTag` | packages/server/src/pg-transactor.ts:80 | The tag expression matches exactly where a dollar tag starts. |
| `SqlScanner.QuotedMeansEnds` | packages/server/src/pg-transactor.ts:79 | The scan for a closing quote and the description of the content as doubled quotes agree in both directions. |
| `ServerLexing.AgreesExactly` | packages/server/src/pg-transactor.ts:62-86 | Over a set of code units the scanner's lexing of every accepted text is that of the server, if and only if the set can write no escaped string and no comment ended by a carriage return, and has nothing past ASCII, or nothing but white space and semicolons. |
| `EarlyCommit.CommitWritableExactly` | packages/server/src/pg-transactor.ts:62-86 | Over a set of code units some accepted text holds a statement that begins with COMMIT or END, if and only if the set can spell one of the two and has one of the forms the server lexes otherwise, with the separator each needs. |
| `EarlyCommit.SelectCommitIsBoth` | packages/server/src/pg-transactor.ts:79 | One text is a single SELECT to the scanner and a SELECT, a COMMIT and a comment to the server. |
| `Transactor.RunTransaction` | packages/server/src/pg-transactor.ts:197-233 | For every fault at every await, unless a callback commits for itself: at most one commit; a result means exactly one, confirmed; any error but the ambiguous and post-commit ones means none. Always: the callback reruns only after attempts that never dispatched COMMIT; a retryable error is returned only when retries are used up or the signal fired; each client is released once and reused only after COMMIT and DISCARD were confirmed. |
| `TransactorLaws.RetriesExactly` | packages/server/src/pg-transactor.ts:197-233 | An attempt is followed by another exactly after a serialization failure or deadlock, with retries left and no signal. |
| `TransactorLaws.TransientFailuresAreOvercome` | packages/server/src/pg-transactor.ts:197-233 | A call whose transient failures are no more than its retries, and whose next attempt meets no fault, returns. |
| `Transactor.AtMostOnceExactly` | packages/server/src/pg-transactor.ts:197-396 | Over all faults, and all callbacks that send texts over a set of code units to the executor, at most one attempt lands if and only if no retries are configured or no accepted text over those units can hold a commit. |
| `Transactor.KnownOutcomeExactly` | packages/server/src/pg-transactor.ts:197-396 | Over the same runs an error of a known outcome means that nothing landed, if and only if no accepted text over those units can hold a commit. |
| `Transactor.SelectLandsTwice` | packages/server/src/pg-transactor.ts:197-396 | A callback that sends one accepted text, a SELECT to the scanner, and then reports a serialization failure lands in both attempts of a call with a retry. |
| `Transactor.CallTells` | packages/server/src/pg-transactor.ts:197-233 | Without escaping callbacks the outcome of a call tells how many attempts landed: one for a result, none for an error of a known outcome, at most one otherwise. |
| `Transactor.AttemptedIsOk` | packages/server/src/pg-transactor.ts:269-396 | Whatever happens at its awaits, one attempt releases its client once, reuses it only after COMMIT and DISCARD were confirmed, returns a result exactly when every await confirmed, and reports an error kind that bounds what landed. |
| `Transactor.RunOnce` | packages/server/src/pg-transactor.ts:269-396 | The statements of an attempt, with its flags and release states, produce the outcome and trace whose guarantees are proved of every attempt. |
| `TransactorLaws.EndsExactly` | packages/server/src/pg-transactor.ts:269-396 | The kind of an attempt's end is determined, both ways, by what happened at its awaits: a result, a post-commit error, an outcome in doubt, a failed disposal. |
| `TransactorLaws.LandsExactly` | packages/server/src/pg-transactor.ts:336-396 | An attempt lands if and only if its callback committed for itself, its COMMIT was confirmed, or its COMMIT in doubt did land. |
| `TransactorLaws.ReleasesExactly` | packages/server/src/pg-transactor.ts:276-396 | A client is reused exactly after a confirmed COMMIT and DISCARD with no abort in between; any other that was acquired is destroyed. |
| `TransactorLaws.SetupFailsFirst` | packages/server/src/pg-transactor.ts:302-337 | The first setup statement that is not confirmed ends the attempt with its error, before the callback runs. |
| `TransactorLaws.FailsWithItsCode` | packages/server/src/pg-transactor.ts:269-396 | An attempt fails with the code of the await that failed, and with none where the outcome is in doubt. |
| `Transactor.TerminalRelease` | packages/server/src/pg-transactor.ts:276-286 | A release is called on an open client only, and leaves a state in which a further call does nothing. |
| `Transactor.EscapedCommitIsRetried` | packages/server/src/pg-transactor.ts:214-226 | After a callback that committed for itself, a reported serialization failure meets every retry condition. |
| `AuditChain.AnchoredListsAgree` | packages/server/src/audit.ts:122-158 | Two entry lists that verify against one anchor agree on every sequence number up to it that both hold. |
| `AuditChain.EarlierHeadsVerify` | packages/server/src/audit.ts:122-194 | After every write the memory log verifies, and verifies against an earlier head exactly when that head has sequence at least 1 and its entry is retained. |
| `AuditChain.VerifyEntriesLoop` | packages/server/src/audit.ts:122-158 | The loop with its early exits computes the verdict the agreement lemmas are about. |
| `AuditLaws.ChainVerdict` | packages/server/src/audit.ts:122-158 | The verdict on a list is that of its first place where hash, number or link does not hold, and valid exactly when there is none. |
| `AuditLaws.AnchorVerdict` | packages/server/src/audit.ts:146-157 | A sound list is refused as truncated exactly when it ends below the anchor, and valid exactly when it holds the anchor's entry. |
| `AuditLaws.SortsBySeq` | packages/server/src/audit.ts:122-130 | The list verified is sorted by sequence number, keeps every entry, and leaves entries of one number in their order. |
| `AuditChain.EveryLogIsLinked` | packages/server/src/audit.ts:177-194 | Every sequence of writes, with trimming, leaves one linked list numbered up to the number of writes. |
| `AuditLaws.RetainsExactly` | packages/server/src/audit.ts:177-194 | A bounded log retains as many of the last bodies as its bound, an unbounded one all, in order. |
| `AuditChain.MemoryAuditLog.WriteEntry` | packages/server/src/audit.ts:177-194 | A write changes counter, head and entries as the linked list requires. |
| `AuditChain.AppendersKeepOneChain` | packages/server/src/audit.ts:239-271 | Any interleaving of optimistic appenders keeps one contiguous chain from genesis, which verifies. |
| `AuditLaws.IdsStayDistinct` | packages/server/src/audit.ts:239-271 | No interleaving of appenders stores an id twice. |
| `AuditLaws.UndisturbedAppends` | packages/server/src/audit.ts:239-271 | An appender that inserts right after reading the head adds its entry exactly when its id is not stored. |
| `AuditChain.PgAuditLog.WriteEntry` | packages/server/src/audit.ts:234-272 | The loop makes attempts up to the first that is undisturbed and whose id is not stored, and succeeds exactly if the budget holds one; its entry then follows exactly what others appended before. |
| `AuditLaws.FirstAttemptInserts` | packages/server/src/audit.ts:239-271 | The first attempt of a write inserts exactly when every id rivals bring during it is stored already and its own is not. |
| `PrincipalLedger.EveryRunIsContinuous` | packages/server/src/principal-session.ts:215-313 | After every completed bind, append, close and rotation, continuity verification accepts every bound principal. |
| `PrincipalLedger.HeadCommitsToHistory` | packages/server/src/principal-session.ts:327-382 | Two ledgers that verify with one checkpoint head hold the same checkpoints, streams and events from genesis. |
| `PrincipalLedger.EventsCommit` | packages/server/src/principal-session.ts:638-664 | A stream head determines every event before it. |
| `PrincipalLedger.CheckpointsCommit` | packages/server/src/principal-session.ts:496-520 | A checkpoint hash determines every checkpoint before it. |
| `PrincipalLedger.BindKeeps` | packages/server/src/principal-session.ts:215-281 | A bind, new or repeated, keeps the ledger verifiable. |
| `PrincipalLedger.AppendKeeps` | packages/server/src/principal-session.ts:283-297 | An append keeps the ledger verifiable. |
| `PrincipalLedger.CloseKeeps` | packages/server/src/principal-session.ts:299-303 | A close keeps the ledger verifiable. |
| `PrincipalLedger.RotateKeeps` | packages/server/src/principal-session.ts:305-313 | A key rotation keeps the ledger verifiable. |
| `PrincipalLedger.MemoryPrincipalSessionLedger.BindSession` | packages/server/src/principal-session.ts:215-281 | The method updates the maps exactly as the bind step the invariant is proved of. |
| `LedgerLaws.BindsExactly` | packages/server/src/principal-session.ts:215-281 | A binding that goes through spends the nonce, answers the stream of principal, provider and agent, puts the session on all lists, and appends the event with exactly its body; nobody else's record changes. |
| `LedgerLaws.BindRefusals` | packages/server/src/principal-session.ts:215-245 | A binding is refused exactly for a malformed input, a bad proof, a spent nonce or a failed resolver, in that order; the last spends the nonce. |
| `PrincipalLedger.MemoryPrincipalSessionLedger.AppendStreamEvent` | packages/server/src/principal-session.ts:283-297 | The method updates the maps exactly as the append step the invariant is proved of. |
| `LedgerLaws.AppendsExactly` | packages/server/src/principal-session.ts:283-297 | An event is appended exactly to a stream of the named principal, with its labels in the body, and a checkpoint over the heads as they then are. |
| `PrincipalLedger.MemoryPrincipalSessionLedger.CloseSession` | packages/server/src/principal-session.ts:299-303 | The method updates the maps exactly as the close step the invariant is proved of. |
| `LedgerLaws.ClosesExactly` | packages/server/src/principal-session.ts:299-303 | Closing takes the session and no other off the active list, even when its stream is unknown. |
| `PrincipalLedger.MemoryPrincipalSessionLedger.RotatePrincipalKey` | packages/server/src/principal-session.ts:305-313 | The method updates the maps exactly as the rotation step the invariant is proved of. |
| `LedgerLaws.RotatesExactly` | packages/server/src/principal-session.ts:305-313 | A rotation gives exactly a known principal the new fingerprint and version under its old id, and a checkpoint; streams stay. |
| `PrincipalLedger.MemoryPrincipalSessionLedger.AppendEventToStream` | packages/server/src/principal-session.ts:453-494 | One linked event is appended and the stream head follows it. |
| `PrincipalLedger.MemoryPrincipalSessionLedger.AppendCheckpoint` | packages/server/src/principal-session.ts:496-520 | One linked checkpoint over the current stream heads is appended and the principal follows it. |
| `PrincipalLedger.MemoryPrincipalSessionLedger.StreamHolds` | packages/server/src/principal-session.ts:332-353 | The event loop accepts exactly the linked streams whose stored head is the last event. |
| `PrincipalLedger.MemoryPrincipalSessionLedger.VerifyPrincipalContinuity` | packages/server/src/principal-session.ts:327-382 | The method accepts exactly the continuous principals. |
| `Authorization.AcceptanceMeans` | packages/server/src/middleware.ts:401-455 | A claim is accepted if and only if the request was proven, the pair is no ghost, and the stored pair is active, unexpired, below its cap and carries exactly the key, secret, scope, mode, expiry, cap and kind that were checked. |
| `Authorization.UsesEqualTheCounter` | packages/server/src/middleware.ts:401-455 | Over all interleavings with lifecycle changes, the request counter of every pair equals the number of accepted uses. |
| `Authorization.UsesStayWithinTheCap` | packages/server/src/middleware.ts:401-455 | While the cap of a pair is left alone, its accepted uses stay within it. |
| `Authorization.Server.VerifyBPCRequest` | packages/server/src/middleware.ts:230-455 | Whatever happens to the store in between, a request is accepted if and only if the pair passed the capture, the checks passed, the pair is no ghost, and the pair stored at the claim is active, unexpired, below its cap and unchanged in all that was checked; a refusal at the capture only marks the threshold or limit it met, a check that counts against the pair records one failure on it, which can lock it, and any other denial changes no pair. |
| `AuthorizationLaws.CapturesExactly` | packages/server/src/middleware.ts:230-276 | A verification captures exactly a stored pair that is active, below the lockout, neither past nor spent; a refusal marks on an active one the first limit it met. |
| `Authorization.NothingAfterRevocation` | packages/server/src/registry.ts:248-255 | After revocation or rotation no use is accepted any more, whatever was captured before, and the pair never leaves that state. |
| `Authorization.RecordFailure` | packages/server/src/registry.ts:304-359 | Recording a failure can at most lock an active pair and leaves everything authorization checks alone. |
| `AuthorizationLaws.FailureLocksExactly` | packages/server/src/registry.ts:304-359 | A failure locks exactly an active pair whose count or decayed score has reached its threshold; count, score and window start are as spelled out. |
| `AuthorizationLaws.EnoughFailuresLock` | packages/server/src/registry.ts:304-359 | However far apart they come, failures that bring an active pair's count to the threshold lock it. |
| `AuthorizationLaws.UnlockRestores` | packages/server/src/registry.ts:478-490 | A locked pair passes the capture again once unlocked, exactly if nothing else stands against it. |
| `AuthorizationLaws.UpdatesExactly` | packages/server/src/registry.ts:505-530 | An update sets exactly the fields it carries, an explicit absence included. |
| `AuthorizationLaws.StepsExactly` | packages/server/src/registry.ts:248-530 | A revocation, unlock, update or failure changes exactly the stored pair it names, and no verification or use. |
| `Authorization.Decayed` | packages/server/src/registry.ts:463-476 | The decay touches only the failure score and the start of its window. |
| `Authorization.MemoryPairStore.AtomicMutate` | packages/server/src/memory-store.ts:30-40 | The callback result is stored only under the same identity. |
| `Authorization.MemoryPairStore.ApprovePending` | packages/server/src/memory-store.ts:43-62 | An approval succeeds exactly on the expected pending entry, equal as JSON text, an initial matching pair, spare capacity and a new identity, in that order of errors. |
| `AuthorizationLaws.ApprovesExactly` | packages/server/src/memory-store.ts:43-62 | An approval goes through if and only if the pending entry is the expected one, the pair is initial and fits it in every field, the active pairs are below the bound and the id is new. |
| `Authorization.MemoryPairStore.RotatePair` | packages/server/src/memory-store.ts:64-73 | A rotation happens exactly when the stored pair is the expected one, equal as JSON text, and active, and the replacement is initial, policy-equal and new. |
| `AuthorizationLaws.RotatesExactly` | packages/server/src/memory-store.ts:64-73 | A rotation retires exactly an active stored pair equal to the expected one, and stores a new initial one with its policy. |
| `Authorization.MemoryPairStore.ClaimSuccessfulUse` | packages/server/src/memory-store.ts:75-103 | The claim is the step the counter and acceptance lemmas are about. |
| `AuthorizationLaws.ClaimOutcomes` | packages/server/src/memory-store.ts:75-103 | A use is claimed if and only if the stored pair is active, neither past nor spent, and equal to the policy in every field; each other outcome has its own condition, and the pair left is spelled out. |
| `Authorization.MemoryPairStore.ExpireElapsed` | packages/server/src/memory-store.ts:105-113 | An active pair past its expiry expires, and no other. |
| `Authorization.MemoryPairStore.ExpireIfUsageExhausted` | packages/server/src/memory-store.ts:115-122 | An active pair at its cap expires, and no other. |
| `Authorization.MemoryPairStore.LockIfFailureThreshold` | packages/server/src/memory-store.ts:124-132 | An active pair at the threshold locks, and no other. |
| `AuthorizationLaws.TransitionsExactly` | packages/server/src/memory-store.ts:105-132 | Each conditional transition changes exactly an active pair that meets its condition, and only the status. |

## Left out

- PostgreSQL catalog attestation, schema manifests, DDL, roles, ACLs and the mutation tickets of governed SQL functions: plumbing around the protocols.
- Cryptographic internals and constant-time comparison: hashes and seals are terms, signatures are set membership.
- HTTP and fetch streaming, headers, body caps, file stores, browser storage, command line and framework wrappers: I/O.
- JavaScript object hazards (proxies, accessors, symbols, prototypes, sparse arrays): values start as plain JSON; numbers are integers, so minus zero is zero.
- Redis JSON text variants: a fence record stands for its one JSON text, and a corrupt stored text is not modelled.
- Regular-expression shapes of identifiers in leases, cutover intents and receipts (those of record headers and snapshot manifests are modelled), and streams other than the one modelled.
- Epoch transitions inside the outbox, which the source does not implement: one source epoch per outbox.
- Zero-loss failover: FENCED binds the final sequence of the manifest and does not compare it with the old source at that time, so promotion is stated relative to the manifest.
- Redis selective eviction, restores of an old snapshot and cold starts on a historical epoch: documented boundaries outside the fault model.
- `MemoryNonceBackend`, the best-effort replicating store, the failover transport, the rate limiter, anomaly counters and the tarpit: simpler variants with easier members.
- Front truncation of the audit log: verification does not pin the first retained entry, so only anchored overlap is stated.
- The quorum record a fencing step reads is arbitrary in `SingleWriter`, which only allows more runs; quorum agreement itself is in `Quorum`.
- The effect of the bounded rollback after a failed attempt, and timers: an attempt is given the answer at each await.
- The decimal text of the cumulative failure score in database rows: it is a real number; rows do not tell an absent first-failure time from a null one, as in the source.
- The grammar of SQL beyond its lexing: a text holds a commit when one of its statements begins with COMMIT or END, whether or not the server can parse the rest; the lexing is that of standard_conforming_strings, without the continuation of a string on the next line.
- The await between the upsert of a new principal and its first checkpoint: a bind is one step.
- Administrative `set` and `delete` on the memory store in `Authorization` runs: pairs enter by approval or rotation.
- The map of per-address failures: the number it yields is a parameter of a failure step and of a failed check.
- The canonicalization budget of one mutation at its append: a row too large to digest is admitted by the model, and then fits no snapshot.
- Publisher.PgDurablePublisher.DrainOnce: between its steps other publishers only take the expired lease; arbitrary interleavings of drains are proved in `Replication.ExactlyOnceInOrder`.
