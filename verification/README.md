# Signing coordination, verified

This project models the coordination backend of kota in Dafny and proves
properties of the model. The platform coordinates multisig spends: participants
register a wallet and submit keystores, somebody proposes a spend, a job builds
the unsigned PSBT, signers upload signed PSBTs, a second job combines them into a
final transaction, and chain observations follow that transaction. Everything is
event-sourced; use cases and jobs are concurrent and may crash and repeat.

`dafny verify dfyconfig.toml` checks the whole project.

## How it is organised

| files | part of the system |
|---|---|
| `Foundation`, `Documents`, `Sorting` | shared types, PSBTs and transactions as values, the library sort |
| `SessionModel`, `Session` | the signing session: commands as functions on values, and the entity object whose methods are proved to compute them |
| `SessionHistory`, `SessionLanguage`, `SessionAnswers` | hydration, repeated delivery and causality over all runs; the exact language of session logs; what each command answers and appends, read off the log |
| `Submission`, `Combination` | acceptance and rebuild of signed PSBTs, re-verification, combination of several signers |
| `Storage`, `Finalization`, `Quorum` | blob storage, the finalization job, and the exact condition under which it finalizes |
| `Descriptors`, `DescriptorText`, `WalletModel`, `WalletEntity`, `WalletHistory`, `WalletAnswers` | canonical descriptors and content addresses; the wallet aggregate, what its commands answer and whom it binds to which keystore |
| `Spending`, `Keystores`, `SpendDocument`, `Proposal`, `Creation`, `UseCases` | building the unsigned PSBT, which script keys it gives each keystore, what a signing device reads in it, proposing, the creation job, use cases on sessions |
| `Registry` | stored wallets under concurrent use cases, with the unique fingerprint |
| `System`, `SystemSafety`, `SystemInvariant`, `SystemTheorems` | the whole platform as a state machine over load, compute, put, commit, finish and crash steps; its invariant and safety |
| `SystemSteps` | what each step changes, exactly |
| `SystemProgress`, `SystemLife` | what the jobs' undisturbed runs make of pending and due sessions; from the empty platform to a finalized session |
| `Limits` | concrete wallets, spends and sessions for each exact condition that excludes something |

Stateful code keeps its form: `PsbtSession`, `Wallet`, `BlobStore` and
`WalletRepo` are classes, loops are loops. Each method is proved equal to a
specification function, and the theorems are about those functions. The platform
is a total step function on states, so a reachable state is the result of any
sequence of steps from the empty one.

## Main results

- **The language of logs.** A session log can be reached by commands if and only
  if it has the shape described, without commands, in `SessionLanguage`
  (`LogLanguage`).
- **Nobody is stranded.** In every interleaving with crashes and retries a met
  threshold has a finalization job that will act on it, and a pending session a
  creation job, unless the coins do not add up (`NobodyIsStranded`).
- **Progress, exactly.** That finalization job's next undisturbed run ends the
  collection if and only if the signers fill a threshold of places in every script
  and the first threshold - 1 of them do not (`QuorumFinishesIff`); where the
  wallet's keys derive distinct points at one of the coins the second half is void
  (`DistinctPointsFinishIff`), and when all signatures are under compressed keys the
  first one is (`CompressedFinishesIff`). The creation job's run opens a pending
  session if and only if the wallet can build the spend from the coins
  (`PendingOpensIff`, `CreationOutcomeIff`, `NeverRecordsIff`).
- **Every step, exactly.** What each command answers and appends is stated on the
  log alone (`ConfirmationAnswers`, `FinalizationAnswers`, `SubmissionAnswers` and
  the others of `SessionAnswers` and `WalletAnswers`), and what each step of the
  platform changes on its state alone: a proposal stores itself and its job
  (`ProposalTakesEffectIff`), an upload is bound to the keystore its user holds and
  recorded with its job (`UploadOpensIff`, `UploadRecordsIff`), an observation
  appends its own event (`ObservationCommits`).
- **The platform lives.** From the empty state every wallet of usable keys with
  points of their own, whose signers can sign, gets a session to Collecting and to
  Finalized (`EveryWalletSpends`).
- **Serialisation and permanence.** Every stored log is a single-threaded one, and
  a finalization never changes (`LogsAreSerial`, `FinalizedForEver`).
- **What signers are shown.** The unsigned document is spelled out as a signing
  device reads it: each coin whole, with its script and exactly that script's keys,
  destinations bare, and the change alone marked as the wallet's
  (`BuildsDocument`, `BuildRefuses`).
- **Logs and blobs agree** in every reachable state, and the recorded transaction
  is the one extracted from exactly the recorded signers' documents
  (`LogsResolve`).
- **Accept and rebuild.** A submission is accepted exactly when it is the original
  plus complete, genuine signatures of the signer, and the rebuilt document is that
  submission (`ValidateSignedSubmission`, `AcceptAndRebuild`); signers commute and
  lose nothing (`SignersCommute`, `NothingDiscarded`).
- **Wallet identity.** Fingerprints are equal exactly when network, threshold and
  keystores are (`FingerprintIsIdentity`), no two stored wallets share one, and a
  repeated import finds the first wallet as long as it would complete a copy of it
  (`OneWalletPerContent`, `AnsweredWithTheFirst`, `RetryFindsTheSame`).
- **Conservation of value** with 64-bit checked sums (`ValueConserved`,
  `ArithmeticIsExact`).

## Where the code does less than its documentation says

- **Two keystores, one point.** A wallet refuses a keystore whose fingerprint is
  taken, and the fingerprint is the origin the submitter declares
  (`core/coordination/src/wallet/entity.rs:269-276`,
  `core/coordination/src/wallet.rs:277-286`), while derivation ignores the origin.
  Two participants can register one extended key, or two related ones, and the
  wallet activates (`SharedKeyWallet`). A point that two of its keys derive has two
  places in the script and one entry in the map of key sources, so the participant
  whose origin is not the one kept there is refused on every upload
  (`ShadowedIsRefused`), and the other's single signature fills both places. If
  that makes the documents final before the threshold of signers is reached, the
  job names fewer signers than the session accepts
  (`core/coordination/src/psbt_session/entity.rs:251-256`) and is retried for ever
  (`EarlyQuorumIsRefused`, `EarlyQuorumIsFatal`, and `SharedKeyIsRefused` for a
  wallet and session where it happens). `OneKeyPerKeystoreIff` and
  `CompressedFinishesIff` give the exact conditions, on the points the wallet's keys
  derive at the coins' indices.
- **Uncompressed keys.** The finalization job documents its failure to finalize as
  impossible after upload-time validation. Validation binds a signature by the
  point of its key and not by the key's encoding
  (`core/coordination/src/psbt.rs:241-250`), while a P2WSH script holds compressed
  keys; an upload filed under the uncompressed encoding is accepted and does not
  count (`UncompressedFormDoesNotCount`; exact: `FinalizationCompletesIff`).
- **Builds that never succeed.** The creation job completes on deterministic build
  failures so that they do not poison the queue
  (`core/coordination/src/jobs/psbt_creation.rs:169-190`), but only on two of them.
  A wallet accepts keys of every kind (`core/coordination/src/wallet/entity.rs:236-302`),
  and deriving a script fails by the kind of key and the index
  (`core/coordination/src/wallet.rs:195`, `:225`): a wallet with a multi-path key
  activates and every proposal on it is retried for ever
  (`IndefiniteKeyRetriesForEver`). So is a proposal with a hardened change index,
  unless no key of the wallet has a wildcard (`HardenedChangeRetriesForEver`), and
  one that pays out more than 64 bits (`OversizedOutputsRetryForEver`).
  `NeverRecordsIff` says that these are all the sessions no coins can serve,
  `CreationOutcomeIff` which failures end the job. The other branch that gives up,
  a wrong-network address, is dead for proposed sessions (`GivesUpOnlyUnbalanced`).
- **Chain states that repeat.** Every reversal is to be reported, and chain states
  are never terminal. A session that was confirmed, reorganised out and seen in the
  mempool again does not record its eviction, because the guard has no
  confirmation after the earlier invalidation to stop at (`InvalidationSwallowed`,
  exact: `InvalidationRecordedIff`). A transaction that is seen again after it was
  reorganised out is not recorded either if it had been seen before its
  confirmation, so the session stays Invalidated (`SightingSwallowed`, exact:
  `SightingRecordedIff`).

## Model

| member | source | states |
|---|---|---|
| `Sorting.SortSorts` | core/coordination/src/psbt_session/entity.rs:258-264 | the sort used on fingerprints, outpoints and keys returns a sorted permutation of its argument |
| `Sorting.SortedUnique` | core/coordination/src/wallet.rs:123 | a bag of elements has one sorted arrangement under an order in which equal-ranking elements are equal |
| `Sorting.SortCanonical` | core/coordination/src/wallet.rs:114-123 | rearranging the argument does not change the sorted result |
| `Sorting.SortDedupDecidesDistinct` | core/coordination/src/psbt_session/entity.rs:257-263 | sort, dedup and compare lengths finds a repeat if and only if there is one; with no repeat the result is the sorted list |
| `Sorting.SortedDistinctIffAdjacent` | core/coordination/src/psbt_session/entity.rs:638-648 | in a sorted list all elements differ if and only if neighbours do |
| `SessionEntity.GuardHolds` | core/coordination/src/psbt_session/entity.rs:178-181 | the guard loop stops at the newest matching or resetting event and answers as the scan specification does |
| `SessionEntity.PsbtSession.constructor` | core/coordination/src/psbt_session/entity.rs:525 | the object holds exactly the given entity |
| `SessionEntity.PsbtSession.CurrentStatus` | core/coordination/src/psbt_session/entity.rs:106-119 | the reverse loop returns the status set by the newest status-setting event, `Pending` if there is none |
| `SessionEntity.PsbtSession.RecordPsbtCreated` | core/coordination/src/psbt_session/entity.rs:174-193 | new state (hash cached, one event) and outcome are those of the specification command, errors included |
| `SessionEntity.PsbtSession.AddSignature` | core/coordination/src/psbt_session/entity.rs:208-233 | new state (record and event appended) and outcome are those of the specification command, in the order of its checks |
| `SessionEntity.PsbtSession.Finalize` | core/coordination/src/psbt_session/entity.rs:238-281 | new state (sorted signers recorded, one event) and outcome are those of the specification command |
| `SessionEntity.PsbtSession.MarkBroadcastSeen` | core/coordination/src/psbt_session/entity.rs:285-305 | new state and outcome are those of the specification command: a sighting after a confirmation is redundant |
| `SessionEntity.PsbtSession.Confirm` | core/coordination/src/psbt_session/entity.rs:307-332 | new state and outcome are those of the specification command, whose guard an invalidation resets |
| `SessionEntity.PsbtSession.Invalidate` | core/coordination/src/psbt_session/entity.rs:335-356 | new state and outcome are those of the specification command, whose guard a confirmation resets |
| `SessionEntity.PsbtSession.Cancel` | core/coordination/src/psbt_session/entity.rs:362-388 | new state and outcome are those of the specification command: only before the chain decides |
| `SessionEntity.VerifySignatures` | core/coordination/src/psbt_session/entity.rs:423-437 | no violation if and only if the signers are distinct policy members; otherwise the reported one is present |
| `SessionEntity.VerifyFinalization` | core/coordination/src/psbt_session/entity.rs:438-461 | no violation if and only if the recorded signers are a threshold of distinct collected ones |
| `SessionEntity.VerifyHydratedInvariants` | core/coordination/src/psbt_session/entity.rs:400-463 | no violation if and only if the policy, signature and finalization invariants hold; a reported violation is one the data has |
| `SessionEntity.TryFromEvents` | core/coordination/src/psbt_session/entity.rs:467-528 | a log loads if and only if it names a policy and its replay satisfies the invariants, and then the object is exactly the replayed entity |
| `SessionHistory.GuardMeaning` | core/coordination/src/psbt_session/entity.rs:320-324 | an idempotency guard fires if and only if some event matches `already_applied` and no newer one matches `resets_on` |
| `SessionHistory.NoResetMeaning` | core/coordination/src/psbt_session/entity.rs:178-181 | a guard without resets fires if and only if any event ever matched |
| `SessionHistory.StatusScanConcat` | core/coordination/src/psbt_session/entity.rs:106-119 | the status of a log followed by another is the newer one's, if it sets any |
| `SessionHistory.ReplayConcat` | core/coordination/src/psbt_session/entity.rs:467-528 | hydration of a concatenation: newest policy, hash and finalization win, signatures accumulate in order |
| `SessionHistory.SignedIffRecorded` | core/coordination/src/psbt_session/entity.rs:162-166 | the cached signature list contains a signer if and only if the log guard for that signer fires |
| `SessionHistory.FinalizedIffRecorded` | core/coordination/src/psbt_session/entity.rs:154-156 | the cached finalization is set if and only if the log guard for it fires |
| `SessionHistory.GuardsAgreeWithCache` | core/coordination/src/psbt_session/entity.rs:174-247 | in every loaded session a repeated user command is recognised exactly when the cached field says so |
| `SessionHistory.CollectingHasPsbt` | core/coordination/src/jobs/finalization.rs:61-63 | Collecting implies a recorded unsigned PSBT: the `expect` of the finalization job cannot fire |
| `SessionHistory.FinalizeRecords` | core/coordination/src/psbt_session/entity.rs:257-279 | what a successful finalize records: the given signers, sorted, which satisfy the finalization invariant |
| `SessionHistory.FinalizeExecutesIff` | core/coordination/src/psbt_session/entity.rs:244-268 | finalize takes effect if and only if not yet finalized, collecting, and given a threshold of distinct collected signers |
| `SessionHistory.CommandKeepsHydrated` | core/coordination/src/psbt_session/entity.rs:174-388 | after any command, loading the log gives back exactly the in-memory entity, with its invariants |
| `SessionHistory.HydrationClosure` | core/coordination/src/psbt_session/entity.rs:400-528 | from any loadable session and after any commands the log loads again to the in-memory entity; Collecting implies an unsigned hash |
| `SessionHistory.ApplyAppends` | core/coordination/src/psbt_session/entity.rs:174-388 | a command appends exactly one event if it executes and changes nothing otherwise |
| `SessionHistory.StutterOnce` | core/coordination/src/psbt_session/entity.rs:178-181 | a command delivered again right away changes nothing |
| `SessionHistory.StutterInvariance` | core/coordination/src/jobs/mod.rs:150-174 | at-least-once delivery: any run with immediate repeats ends in the same session as the run without |
| `SessionHistory.UserCommandSticks` | core/coordination/src/psbt_session/entity.rs:178-181 | an executed user command stays an already-applied no-op in every later state |
| `SessionHistory.ChainHasTheLastWord` | core/coordination/src/psbt_session/entity.rs:358-388 | once the newest event is a chain observation only chain observations are ever appended |
| `SessionHistory.FinalizationIsPermanent` | core/coordination/src/psbt_session/entity.rs:244-280 | a recorded finalization (id, hash, signers) survives every later command |
| `SessionAnswers.StatusMeaning` | core/coordination/src/psbt_session/entity.rs:106-119 | the status goes with the newest event that is neither the proposal nor a signature, kind by kind; `Pending` if and only if there is none |
| `SessionAnswers.ChainGuardsMean` | core/coordination/src/psbt_session/entity.rs:285-356 | what the chain guards look for, by positions in the log: any sighting; a confirmation that no newer invalidation undid; an invalidation that no newer confirmation undid |
| `SessionAnswers.CreationAnswers` | core/coordination/src/psbt_session/entity.rs:174-193 | for every session: repeat if a PSBT was ever recorded, refused unless pending, otherwise the hash is cached and exactly its event appended |
| `SessionAnswers.SignatureAnswers` | core/coordination/src/psbt_session/entity.rs:208-233 | for every session: repeat if that keystore ever signed, then refused unless collecting, then unless in the policy; otherwise exactly that record and event are appended |
| `SessionAnswers.FinalizationAnswers` | core/coordination/src/psbt_session/entity.rs:238-281 | for every session: which check answers, in order; on success the recorded signers are the given ones, each once, ascending as numbers, with the given transaction id and hash |
| `SessionAnswers.SightingAnswers` | core/coordination/src/psbt_session/entity.rs:285-305 | a sighting of the finalized transaction is redundant if and only if one was ever recorded or the session is confirmed; otherwise exactly its event is appended |
| `SessionAnswers.ConfirmationAnswers` | core/coordination/src/psbt_session/entity.rs:307-332 | a confirmation of the finalized transaction is redundant if and only if one stands that no newer invalidation undid; otherwise exactly that transaction, height and block are appended |
| `SessionAnswers.InvalidationAnswers` | core/coordination/src/psbt_session/entity.rs:335-356 | an invalidation is redundant if and only if one stands that no newer confirmation undid, and otherwise appended if and only if broadcast or confirmed |
| `SessionAnswers.CancellationAnswers` | core/coordination/src/psbt_session/entity.rs:362-388 | a cancellation is redundant if and only if one was ever recorded, and otherwise appended, with its user and reason, if and only if pending, collecting or finalized |
| `SessionLanguage.CommandStep` | core/coordination/src/psbt_session/entity.rs:174-388 | on the entity of a log shape every command moves exactly as the shape automaton does |
| `SessionLanguage.NextIsWellFormed` | core/coordination/src/psbt_session/entity.rs:174-388 | every command leads from a well-formed shape to a well-formed shape |
| `SessionLanguage.RunHasShape` | core/coordination/src/psbt_session/entity.rs:106-388 | every run of commands on a shape ends in the entity of some well-formed shape |
| `SessionLanguage.Predecessor` | core/coordination/src/psbt_session/entity.rs:174-388 | every well-formed shape but the first is one command away from a smaller well-formed shape |
| `SessionLanguage.ShapeIsReached` | core/coordination/src/psbt_session/entity.rs:174-388 | every well-formed shape is reached from a proposal by some command sequence |
| `SessionLanguage.ChainWordExtend` | core/coordination/src/psbt_session/entity.rs:285-356 | which observations may extend a chain word: the guards with resets admit exactly alternating confirmations and invalidations, one sighting, no orphan invalidation |
| `SessionLanguage.ChainWordInit` | core/coordination/src/psbt_session/entity.rs:285-356 | conversely, the last observation of a chain word was one the guards admit |
| `SessionLanguage.LogLanguage` | core/coordination/src/psbt_session/entity.rs:106-388 | exact language: a log is reachable by commands if and only if it is a well-formed shape written out |
| `SessionLanguage.ChainSilencesUsers` | core/coordination/src/psbt_session/entity.rs:283-388 | causality: with any chain observation in the log of a reachable session, nothing but observations is ever appended |
| `SessionLanguage.InvalidationRecordedIff` | core/coordination/src/psbt_session/entity.rs:334-356 | exact condition: a reported invalidation of a live transaction is recorded unless the session is back in the mempool after an earlier invalidation |
| `SessionLanguage.InvalidationSwallowed` | core/coordination/src/psbt_session/entity.rs:339-343 | witness: confirmed, reorganised out, sighted again, then evicted; the eviction is taken for a repeat and lost |
| `SessionLanguage.SightingRecordedIff` | core/coordination/src/psbt_session/entity.rs:285-305 | exact condition: a sighting of a transaction neither in the mempool nor confirmed is recorded unless it was invalidated after an earlier sighting |
| `SessionLanguage.SightingSwallowed` | core/coordination/src/psbt_session/entity.rs:289-292 | witness: sighted, confirmed, reorganised out, then sighted again; the second sighting is taken for a repeat and the session stays Invalidated |
| `SessionLanguage.FinalizeOn` | core/coordination/src/psbt_session/entity.rs:244-280 | effect of finalize on any session: nothing, or collecting before and the record and its event after |
| `SessionLanguage.InvalidateAnswers` | core/coordination/src/psbt_session/entity.rs:335-356 | outcome of invalidate on a reachable session, from its chain word alone |
| `Submission.VerifyPartialSig` | core/coordination/src/psbt.rs:104-125 | accepts exactly SIGHASH_ALL signatures valid for the original's sighash; a refusal names the failed check |
| `Submission.CheckSigsKept` | core/coordination/src/psbt.rs:218-223 | true if and only if every signature of the original survives unchanged |
| `Submission.ValidateOne` | core/coordination/src/psbt.rs:232-259 | accepts a new signature if and only if it is bound to the signer by the original's key sources and genuine |
| `Submission.ValidateAdded` | core/coordination/src/psbt.rs:231-260 | the loop over one input accepts if and only if every added signature is bound and genuine, and extracts each of them once |
| `Submission.ValidateInput` | core/coordination/src/psbt.rs:216-264 | one input: accepted if and only if it is the original's plus bound, genuine signatures |
| `Submission.CheckFrame` | core/coordination/src/psbt.rs:185-209 | global fields, counts and output maps: no error if and only if all are unchanged |
| `Submission.ValidateSignedSubmission` | core/coordination/src/psbt.rs:180-273 | succeeds if and only if there is an input and every input gains at least one bound, genuine signature and nothing else changes; each error is true of the submission |
| `Submission.AcceptableMeans` | core/coordination/src/psbt.rs:180-273 | what acceptance means, field by field: the signed document differs in its inputs alone; each keeps every signature and gains at least one, all under keys the platform's document attributes to the signer, SIGHASH_ALL and valid |
| `Submission.MergePartialSigs` | core/coordination/src/psbt.rs:279-287 | the in-place insertion loop computes the merge specification |
| `Submission.MergeMeaning` | core/coordination/src/psbt.rs:279-287 | merging extracted signatures sets exactly those entries, at exactly those inputs |
| `Submission.AcceptAndRebuild` | core/coordination/src/psbt.rs:275-287 | merge inverts extraction: the rebuilt document is the accepted submission itself |
| `Combination.VerifyMergedBlob` | core/coordination/src/psbt.rs:303-325 | passes if and only if the transaction and input count are the original's and every added signature is genuine; a refusal names a defect the document has |
| `Combination.InsertMissing` | core/coordination/src/jobs/finalization.rs:79-81 | `or_insert` over one map, in any order: entries already held win |
| `Combination.CombineInto` | core/coordination/src/jobs/finalization.rs:78-82 | the nested insertion loops compute the combination, input by input |
| `Combination.CombineKeepsSafe` | core/coordination/src/jobs/finalization.rs:77-82 | combining a re-verified document keeps the original's own signatures and adds only genuine ones |
| `Combination.CombineAllIsSafe` | core/coordination/src/jobs/finalization.rs:67-85 | whatever re-verified documents the store returns, their combination is the original plus genuine signatures only |
| `Combination.AcceptedIsSafe` | core/coordination/src/psbt.rs:289-302 | a document accepted at upload passes re-verification |
| `Combination.ReverificationAgrees` | core/coordination/src/psbt.rs:289-325 | the documents of any number of accepted signers, and their combination, all pass re-verification |
| `Combination.SignersDisjoint` | core/coordination/src/psbt.rs:237-250 | accepted submissions of different fingerprints never add a signature under the same key |
| `Combination.CombinedKeys` | core/coordination/src/jobs/finalization.rs:78-82 | the combination has a signature under a key if and only if the original or some document has |
| `Combination.NothingDiscarded` | core/coordination/src/jobs/finalization.rs:78-82 | `or_insert` never discards a signature of an accepted document |
| `Combination.SignersCommute` | core/coordination/src/jobs/finalization.rs:67-83 | any two orders of the same accepted documents combine to the same document |
| `Storage.BlobStore.constructor` | core/coordination/src/storage.rs:61-62 | a new store is empty |
| `Storage.BlobStore.Put` | core/coordination/src/storage.rs:65-72 | stores the bytes under their digest and returns it |
| `Storage.BlobStore.Get` | core/coordination/src/storage.rs:74-80 | returns the stored bytes, if any |
| `Storage.BlobStore.Delete` | core/coordination/src/storage.rs:82-88 | removes the entry and says whether there was one |
| `Storage.BlobStore.FetchVerified` | core/coordination/src/storage.rs:45-57 | bytes are returned if and only if present and digesting to the key; otherwise missing or corrupted |
| `Storage.FetchMeaning` | core/coordination/src/storage.rs:45-57 | a fetch succeeds if and only if the bytes are there and digest to the address; missing and corrupted are told apart |
| `Storage.PutThenFetch` | core/coordination/src/storage.rs:39-57 | a fetch returns what was put whatever was stored there before, and a put disturbs no fetchable blob |
| `Storage.FetchIsSelfVerifying` | core/coordination/src/storage.rs:9-10 | two successful fetches of one address agree, whatever the stores |
| `Finalization.LoadFrom` | core/coordination/src/jobs/finalization.rs:104-107 | loads the PSBT at a hash, or says which check failed |
| `Finalization.LoadMeaning` | core/coordination/src/jobs/finalization.rs:104-107 | a load gives a document if and only if the blob is there, digests to its address and is a PSBT; the first of the three that fails is named |
| `Finalization.CombineUntilFinal` | core/coordination/src/jobs/finalization.rs:67-97 | the combine loop returns the first recording-order prefix whose combination finalizes; the document it finalizes is the original plus genuine signatures, for arbitrary blobs |
| `Finalization.SearchIsSafe` | core/coordination/src/jobs/finalization.rs:67-85 | whatever the store returned, a completed search ends in a finalizable document that only adds genuine signatures |
| `Finalization.MakePlan` | core/coordination/src/jobs/finalization.rs:46-97 | the reading half of the job, loads and search, computes the plan; on a loadable session it has no failing `expect` |
| `Finalization.PlanAnswers` | core/coordination/src/jobs/finalization.rs:46-62 | when there is nothing to combine, in the order the job looks: a finalization in the log, a status other than Collecting, fewer signatures than the threshold; the id of a planned transaction is its own |
| `Finalization.RunFinalization` | core/coordination/src/jobs/finalization.rs:41-98 | stores the transaction and records the finalization exactly when the plan says so, changes nothing otherwise, and leaves a loadable session |
| `Quorum.LaterSignaturesIgnored` | core/coordination/src/jobs/finalization.rs:70-97 | the search looks at no record after the prefix that completed it |
| `Quorum.CombinedTally` | core/coordination/src/jobs/finalization.rs:67-83 | after combining accepted documents, an input has exactly as many filled script places as its signers fill one by one, also when a key has several places |
| `Quorum.FinalizableIffQuorum` | core/coordination/src/jobs/finalization.rs:85 | a combination of accepted documents finalizes if and only if the signers of every input fill a threshold of places in its script |
| `Quorum.SearchFindsLeastQuorum` | core/coordination/src/jobs/finalization.rs:66-97 | the signers the search names are the fewest, in recording order, whose documents finalize |
| `Quorum.FinalizationCompletesIff` | core/coordination/src/jobs/finalization.rs:66-97 | exact condition: on accepted documents the search completes if and only if the recorded signers fill a threshold of places in the script of every input |
| `Quorum.SearchUsesPrefix` | core/coordination/src/jobs/finalization.rs:66-97 | for arbitrary blobs: a completed search names the signers of a first prefix of the records, and its document is the combination of exactly theirs and the first to finalize |
| `Quorum.LeastQuorumReachesThreshold` | core/coordination/src/jobs/finalization.rs:66-97 | the least quorum has a threshold of signers if and only if the first threshold - 1 are not one already |
| `Quorum.CompressedQuorum` | core/coordination/src/jobs/finalization.rs:66-97 | of signatures under compressed keys the first `threshold` are always a quorum, and threshold - 1 are one if and only if at every input some of them sign for a key with several places |
| `Quorum.ThresholdCompletes` | core/coordination/src/jobs/finalization.rs:66-97 | with signatures under compressed keys a met threshold completes the search, on fewer signers than the threshold exactly in that case |
| `Quorum.FirstSignersFinalize` | core/coordination/src/psbt_session/entity.rs:238-281 | the session accepts the first n recorded signers for every n from the threshold on and becomes Finalized with them sorted |
| `Quorum.FewerSignersRefused` | core/coordination/src/psbt_session/entity.rs:251-256 | fewer recorded signers than the threshold are refused and nothing changes |
| `Quorum.MetThresholdEndsFinalIff` | core/coordination/src/jobs/finalization.rs:46-94 | the whole job on a met threshold with compressed keys: it records the first `threshold` signers, or is refused with ThresholdNotMet, exactly by whether the first threshold - 1 include one with a repeated script key at every input |
| `Descriptors.OrderIndependent` | core/coordination/src/wallet.rs:114-126 | keystores in any order give the same descriptor or the same refusal |
| `DescriptorText.LexMeaning` | core/coordination/src/wallet.rs:123 | the string order of keys is dictionary order: a beginning of the other, or smaller at the first difference |
| `DescriptorText.DescriptorMeaning` | core/coordination/src/wallet.rs:119-126 | a descriptor exists if and only if 1 <= threshold <= keys <= 20 and every key may be used in segwit; it has that threshold and exactly those keys, in dictionary order of their texts |
| `Descriptors.ChecksumIgnored` | core/coordination/src/wallet.rs:148-153 | whatever follows the `#` does not enter the fingerprint |
| `Descriptors.KeyListInjective` | core/coordination/src/wallet.rs:148-153 | the printed key list determines the printed keys |
| `Descriptors.FingerprintIdentifies` | core/coordination/src/wallet.rs:128-154 | equal fingerprints mean equal network, threshold and printed keys |
| `DescriptorText.DecimalMeaning` | core/coordination/src/wallet.rs:148-153 | the printed threshold reads back as the threshold, without leading zeros |
| `DescriptorText.KeyListMeaning` | core/coordination/src/wallet.rs:148-153 | the printed key list is the key texts, a comma before each, and two closing parentheses |
| `DescriptorText.FingerprintText` | core/coordination/src/wallet.rs:144-153 | the hashed text, letter by letter: network name, colon, `wsh(sortedmulti(`, threshold, the key texts with a comma before each, `))` |
| `WalletModel.NewWallet` | core/coordination/src/wallet/entity.rs:408-431 | accepts exactly the valid policies (0 < N <= M, distinct participants) and answers each of the others with the first check that fails |
| `WalletEntity.Wallet.constructor` | core/coordination/src/wallet/entity.rs:384 | the object holds exactly the given entity |
| `WalletEntity.Wallet.CurrentStatus` | core/coordination/src/wallet/entity.rs:124-132 | the fold returns the status set by the newest activation or cancellation |
| `WalletEntity.Wallet.CurrentSubmissions` | core/coordination/src/wallet/entity.rs:144-159 | the push-and-retain loop computes the submissions currently held, in order |
| `WalletEntity.Wallet.AddKeystore` | core/coordination/src/wallet/entity.rs:236-302 | new state and outcome are those of the specification command: idempotency first, keystore and activation in one append |
| `WalletEntity.Wallet.RemoveKeystore` | core/coordination/src/wallet/entity.rs:312-336 | new state and outcome are those of the specification command |
| `WalletEntity.Wallet.Cancel` | core/coordination/src/wallet/entity.rs:343-363 | new state and outcome are those of the specification command; the branch marked unreachable is dead |
| `WalletEntity.TryFromEvents` | core/coordination/src/wallet/entity.rs:367-385 | a log loads if and only if it holds a registration; the newest one names the policy |
| `WalletHistory.WithoutFacts` | core/coordination/src/wallet/entity.rs:152-154 | removal leaves everybody else's submission and keeps submitters and fingerprints distinct |
| `WalletHistory.SubmittedIffUser` | core/coordination/src/wallet/entity.rs:144-158 | the first submission of a user is found if and only if the user holds a keystore, and it is theirs |
| `WalletHistory.CompletesExactly` | core/coordination/src/wallet/entity.rs:281 | the 32-bit completion test is the ideal one up to a multiple of 2^32, and exactly the ideal one below 2^32 participants |
| `WalletHistory.CommandKeepsSound` | core/coordination/src/wallet/entity.rs:236-363 | every command keeps the wallet invariant: distinct submitters and fingerprints, terminal event last, active logs end in keystore and activation |
| `WalletHistory.RunKeepsSound` | core/coordination/src/wallet/entity.rs:236-363 | the wallet invariant holds after every run of commands |
| `WalletHistory.SubmissionTakesEffectIff` | core/coordination/src/wallet/entity.rs:236-302 | a submission takes effect if and only if collecting, by a participant holding nothing, with a free fingerprint and, when last, keys that form a descriptor; it changes that holding only; a repeat is recognised exactly when the same key is held |
| `WalletHistory.WithdrawalTakesEffectIff` | core/coordination/src/wallet/entity.rs:304-336 | a withdrawal takes effect if and only if collecting and something is held; that participant then holds nothing, the others what they held |
| `WalletHistory.CancellationTakesEffectIff` | core/coordination/src/wallet/entity.rs:338-363 | a cancellation takes effect if and only if collecting, is a repeat if and only if cancelled, and changes no holding |
| `WalletHistory.CancelledWasRecorded` | core/coordination/src/wallet/entity.rs:355 | the `unreachable!` cannot be reached, from any log |
| `WalletHistory.TerminalStays` | core/coordination/src/wallet/entity.rs:252-256 | an active or cancelled wallet is never changed by any commands |
| `WalletHistory.ActiveIffComplete` | core/coordination/src/wallet/entity.rs:232-235 | Active if and only if every participant holds a keystore |
| `WalletHistory.ActiveDescriptor` | core/coordination/src/wallet/entity.rs:281-300 | an active wallet's descriptor and fingerprint are those of exactly the keystores held |
| `WalletHistory.HistoryIndependent` | core/coordination/src/wallet/entity.rs:232-235 | equal network, threshold and keystores give equal descriptor and fingerprint, whatever orders, removals and resubmissions led there |
| `WalletHistory.FingerprintIsIdentity` | core/coordination/src/wallet.rs:128-143 | two active wallets have equal fingerprints if and only if network, threshold and keystores are equal |
| `WalletAnswers.StatusMeaning` | core/coordination/src/wallet/entity.rs:124-132 | collecting if and only if the log has no activation and no cancellation; otherwise the newest of these decides |
| `WalletAnswers.SubmissionsMeaning` | core/coordination/src/wallet/entity.rs:144-158 | the fold keeps exactly the submissions that no later event withdrew |
| `WalletAnswers.HoldingMeans` | core/coordination/src/wallet/entity.rs:144-177 | in every sound wallet the lookup finds the key a participant submitted and did not withdraw, and nothing if there is none |
| `WalletAnswers.BoundToOwnKey` | core/coordination/src/wallet/entity.rs:172-177 | in every sound wallet each participant is bound to the declared origin of the key they hold, or to its own fingerprint if it declares none; who holds nothing is bound to nothing |
| `WalletAnswers.BoundToOneUser` | core/coordination/src/wallet/entity.rs:172-177 | two participants are never bound to one keystore |
| `WalletAnswers.SubmissionAnswers` | core/coordination/src/wallet/entity.rs:236-302 | which check answers a submission, in order, and what it appends: the keystore, and with the last one the activation with the descriptor of exactly those keys and its fingerprint |
| `WalletAnswers.WithdrawalAnswers` | core/coordination/src/wallet/entity.rs:312-336 | a withdrawal records the keystore that was held, whose it was and who withdrew it; it is a repeat if and only if nothing is held |
| `WalletAnswers.CancellationAnswers` | core/coordination/src/wallet/entity.rs:343-363 | a cancellation is decided by the status alone and records its user and reason |
| `Spending.SumInputs` | core/coordination/src/wallet.rs:179-196 | the first loop computes the checked input total and the coins found, failing where the sources do: no coin, overflow, or a key of the descriptor that is not one key at the coin's index |
| `Spending.SumOutputs` | core/coordination/src/wallet.rs:198-215 | the second loop computes the checked output total from the fee on; the total never falls below the fee |
| `Spending.FillInputs` | core/coordination/src/wallet.rs:254-261 | each input takes its witness data; the first coin that does not pay the derived script is refused |
| `Spending.BuildUnsignedPsbt` | core/coordination/src/wallet.rs:168-272 | the method computes the build specification; the subtraction in its error branch cannot underflow |
| `Spending.GatherInputsMeaning` | core/coordination/src/wallet.rs:179-196 | the checked sum is the ideal sum; inputs whose coins are found and derived by every key fail if and only if the ideal sum exceeds 64 bits |
| `Spending.GatherOutputsMeaning` | core/coordination/src/wallet.rs:198-215 | the same for the outputs and the fee |
| `Spending.ValueConserved` | core/coordination/src/wallet.rs:237-243 | on success the spent coins are worth the outputs plus change plus fee; outputs keep their order, change comes last and pays the wallet |
| `Spending.ArithmeticIsExact` | core/coordination/src/wallet.rs:184-243 | for spends whose coins and change every key derives, on the right network: `AmountOverflow` if and only if an ideal total exceeds 64 bits, `AmountMismatch` if and only if the ideal totals differ |
| `Spending.DefiniteIff` | core/coordination/src/wallet.rs:195-225 | which indices a descriptor derives: none with a multi-path key, otherwise the unhardened ones, and all of them when no key has a wildcard |
| `Spending.BuiltInput` | core/coordination/src/wallet.rs:254-261 | every input of a built document carries the script, key sources and coin of its funding entry |
| `Spending.BuildOutcome` | core/coordination/src/wallet.rs:168-272 | for right-network spends, all coins and descriptors: when a build succeeds and when it reports `AmountMismatch`, as conditions on the spend, the kinds of keys and the coins alone |
| `Spending.SuitableCoins` | core/coordination/src/wallet.rs:168-272 | every spend with derivable change and a payout within 64 bits has coins that build it, on every descriptor without a key that never derives |
| `SpendDocument.FindMeaning` | core/coordination/src/wallet.rs:180-184 | the funding entry used for a coin is the first with its outpoint, and there is none if and only if no entry has it |
| `SpendDocument.InputsShown` | core/coordination/src/wallet.rs:254-260 | each input map shows the whole coin, the script that coin pays to, and for exactly that script's keys the origin and the coin's index |
| `SpendDocument.OutputsShown` | core/coordination/src/wallet.rs:198-269 | every destination's map is empty; the change comes last and its map shows the script its own output pays to, with exactly that script's keys at the change index |
| `SpendDocument.BuildsDocument` | core/coordination/src/wallet.rs:168-272 | the document a signing device reads, spelled out from spend, descriptor and coins: coins in order, destinations in order with empty maps, then the change |
| `SpendDocument.GatherRefuses` | core/coordination/src/wallet.rs:179-196 | the loop over the coins stops at the first coin that has no entry, makes the sum exceed 64 bits, or is not derivable, and says which |
| `SpendDocument.OutputsRefuse` | core/coordination/src/wallet.rs:200-215 | the loop over the destinations stops at the first of another network or that makes the sum exceed 64 bits |
| `SpendDocument.BuildRefuses` | core/coordination/src/wallet.rs:168-272 | a refused build names the first thing in the way: coins, then destinations, the change, the balance with both totals, and the first coin that pays another script |
| `Keystores.BuiltInputIsMultisig` | core/coordination/src/wallet.rs:254-261 | distinct fingerprints make every built input a multisig in which a fingerprint owns at most one key, also when keystores derive the same point |
| `Keystores.CopiesIff` | core/coordination/src/wallet.rs:254-261 | whatever derivation does: a signer's script key has several places if and only if another of the wallet's keys derives the same point at the coin's index |
| `Keystores.OneKeyPerKeystoreIff` | core/coordination/src/wallet.rs:254-286 | exact condition: a built input has one key, once, for each keystore if and only if the held keys derive distinct points at the coin's index |
| `Proposal.FindDuplicate` | core/coordination/src/psbt_session/entity.rs:638-648 | sort and compare neighbours: finds a repeated coin if and only if there is one |
| `Proposal.CheckOutputs` | core/coordination/src/psbt_session/entity.rs:663-684 | no error if and only if every output is on the wallet's network and not dust; otherwise the error is that of the first bad output |
| `Proposal.TryNew` | core/coordination/src/psbt_session/entity.rs:604-720 | accepts exactly the proposable spends; the session has the given id, proposer and spend, whole, the wallet's id and threshold, and the fingerprints of the held keys in order; a refusal is that of the first check that fails |
| `Proposal.ProposableMeaning` | core/coordination/src/psbt_session/entity.rs:604-703 | what can be proposed, in numbers: active, 1 to 100 distinct coins, 1 to 100 outputs on the wallet's network and not dust, change of at least 330, a fee of at most 1 000 000 |
| `Proposal.SnapshotMeaning` | core/coordination/src/psbt_session/entity.rs:709-719 | the policy of a proposal is the one policy with that id, wallet, proposer and spend, the wallet's threshold, and at each place the declared origin or own fingerprint of the key held there |
| `Proposal.SnapshotIsValid` | core/coordination/src/psbt_session/entity.rs:610-622 | a session proposed on an active wallet loads without a violation and knows every fingerprint the wallet resolves |
| `Creation.RunPsbtCreation` | core/coordination/src/jobs/psbt_creation.rs:30-68 | stores and records the built document exactly when the plan says so, changes nothing otherwise |
| `Creation.PlanAnswers` | core/coordination/src/jobs/psbt_creation.rs:40-56 | when there is nothing to build, in the order the job looks: a PSBT in the log, another status than Pending, no wallet, coins or descriptor; which failures it gives up on |
| `Creation.PendingIsFresh` | core/coordination/src/jobs/psbt_creation.rs:40-49 | a pending session has neither an unsigned PSBT nor a finalization |
| `Creation.CreationBuildsMultisig` | core/coordination/src/jobs/psbt_creation.rs:51-64 | cross-aggregate: a recorded document is the document of the session's spend on the wallet's descriptor, outputs and their maps included; every input is a multisig of the session's threshold that attributes a fingerprint at most one key, and value is conserved |
| `Creation.GivesUpOnlyUnbalanced` | core/coordination/src/jobs/psbt_creation.rs:177-190 | for a proposed session the job gives up only on known, derived coins worth something other than what the spend pays for, and the error says both; the wrong-network branch is dead |
| `Creation.CreationOutcomeIff` | core/coordination/src/jobs/psbt_creation.rs:38-68 | for every pending proposed session and all coins: records if and only if coins known, derived and in range, change derived, payout in 64 bits, balanced and paying the script; gives up if and only if all but balanced and paying; retries otherwise |
| `Creation.NeverRecordsIff` | core/coordination/src/jobs/psbt_creation.rs:169-190 | exact condition: no coins whatever get a PSBT recorded if and only if the wallet has a key that never derives, or does not derive the change, or the payout exceeds 64 bits |
| `Creation.UnbuildableRetriesForEver` | core/coordination/src/jobs/psbt_creation.rs:169-190 | those sessions are retried on every funding and never given up on |
| `Creation.ShadowedIsRefused` | core/coordination/src/psbt.rs:232-250 | only a keystore whose key is the last of the descriptor to derive its point at a coin's index can have an upload accepted |
| `Creation.SharedAmongIff` | core/coordination/src/wallet.rs:254-286 | among accepted signers one has a script key with several places at an input if and only if another keystore's key derives the same point at that coin's index |
| `Creation.SharedEverywhereIff` | core/coordination/src/wallet.rs:254-286 | the same at every coin of the spend |
| `UseCases.StoreSubmission` | kota/app/src/lib.rs:272-279 | a document is stored if and only if the submission is acceptable, and it is the submitted one; a refusal leaves no trace and names what was missing, unreadable or wrong |
| `UseCases.ApplyChainObservation` | core/coordination/src/jobs/mod.rs:154-174 | each observation appends its own event, with its own transaction, height, block or reason, exactly when that kind is not redundant; there is something to persist if and only if the log changed |
| `UseCases.ObservationFolds` | core/coordination/src/jobs/mod.rs:154-170 | the command an observation stands for has the effect the observation should have, stated on the log and without the command |
| `Registry.PersistStores` | migrations/20260101000000_core_setup.sql:27-35 | equal versions are equal logs: what a version-checked append stores is the command's result |
| `Registry.ServeMeaning` | kota/app/src/lib.rs:138-194 | a wallet use case stores nothing, or exactly one executed command on one up-to-date wallet |
| `Registry.OpeningSteps` | kota/app/src/lib.rs:119-131 | registering stores exactly the one-event log of a valid policy on the platform's network under a free id; loading opens one request on the wallet as stored; nothing else changes |
| `Registry.ServesUpToDate` | kota/app/src/lib.rs:138-194 | on an up-to-date wallet an executed command is stored, whole, unless it would give the wallet another stored wallet's fingerprint; everything else is answered and stores nothing |
| `Registry.ServesLate` | kota/app/src/lib.rs:145-158 | on an outdated copy nothing is stored; a submission that completes a copy of another stored wallet is answered with that wallet, and every other command that would have taken effect with the failed update |
| `Registry.ActAnswers` | kota/app/src/lib.rs:138-194 | acting on an open request serves it once and closes it with its answer; any other act changes nothing |
| `Registry.StepKeepsConsistent` | kota/app/src/lib.rs:119-194 | every interleaved wallet step keeps logs serial and fingerprints unique |
| `Registry.PlayKeepsConsistent` | migrations/20260101000000_core_setup.sql:18-35 | in every interleaving stored wallet logs are single-threaded runs and no two wallets share a fingerprint |
| `Registry.OneWalletPerContent` | migrations/20260101000000_core_setup.sql:21-23 | in every reachable registry two active wallets with equal network, threshold and keystores are one wallet |
| `Registry.ActiveIsFrozen` | core/coordination/src/wallet/entity.rs:90-94 | an active stored wallet never changes again |
| `Registry.AnsweredWithTheFirst` | kota/app/src/lib.rs:133-158 | a submission is answered with another wallet if and only if it would complete a second copy of it; nothing is stored then |
| `Registry.RetryFindsTheSame` | kota/app/src/lib.rs:336-354 | after any further traffic the retried submission is answered with the same wallet and stores nothing if and only if it would still complete a copy of it; always when the asking wallet's log has not moved |
| `Registry.WalletRepo.constructor` | migrations/20260101000000_core_setup.sql:18-25 | a new repository is empty |
| `Registry.WalletRepo.FindById` | kota/app/src/lib.rs:145 | lookup by id |
| `Registry.WalletRepo.FindByFingerprint` | kota/app/src/lib.rs:345-348 | lookup by the unique fingerprint |
| `Registry.WalletRepo.Update` | migrations/20260101000000_core_setup.sql:18-35 | stores the new events if and only if their sequence numbers and the fingerprint are free |
| `Registry.ResolveFingerprintCollision` | kota/app/src/lib.rs:339-354 | answers with the other wallet holding the fingerprint, or reports the failed update |
| `Registry.SubmitKeystore` | kota/app/src/lib.rs:145-157 | from a loaded wallet on, store and answer are those of the specification |
| `SystemSafety.ReachableStep` | core/coordination/src/jobs/mod.rs:4-8 | a command on a reachable log leaves a reachable log that loads to the command's result |
| `SystemSafety.CollectingNotFinal` | core/coordination/src/jobs/finalization.rs:48-57 | a collecting session of a reachable log is never finalized |
| `SystemSafety.AttemptMeaning` | migrations/20260101000000_core_setup.sql:8-16 | a version-checked commit stores nothing, or exactly the command's result on the stored log |
| `SystemSafety.CommandKeepsLog` | core/coordination/src/psbt_session/entity.rs:174-281 | a command whose blob is in order keeps every hash of the log resolvable |
| `SystemInvariant.ProposeStep` | kota/app/src/lib.rs:202-228 | creating a session together with its creation job keeps the system invariant |
| `SystemInvariant.PutUploadStep` | kota/app/src/lib.rs:272-279 | storing an accepted submission keeps it |
| `SystemInvariant.CommitUploadStep` | kota/app/src/lib.rs:287-304 | committing a signature together with a finalization job keeps it, also when the signature was already there |
| `SystemInvariant.CommitEditStep` | core/coordination/src/jobs/mod.rs:154-174 | committing a chain observation or a cancellation keeps it |
| `SystemInvariant.WorkCreationStep` | core/coordination/src/jobs/psbt_creation.rs:38-68 | building, storing, giving up or retrying in the creation job keeps it |
| `SystemInvariant.WorkFinalizationStep` | core/coordination/src/jobs/finalization.rs:46-97 | searching, storing, completing or retrying in the finalization job keeps it |
| `SystemInvariant.CommitJobStep` | core/coordination/src/jobs/finalization.rs:91-93 | committing a job's result, or losing the race and running again, keeps it |
| `SystemInvariant.CrashJobStep` | core/coordination/src/jobs/mod.rs:4-8 | a job may crash between any two steps |
| `SystemInvariant.WalletsStep` | kota/app/src/lib.rs:119-194 | wallet traffic never disturbs sessions |
| `SystemInvariant.StepKeepsInv` | kota/app/src/lib.rs:202-305 | every step of use cases, jobs, crashes and retries keeps the system invariant |
| `SystemInvariant.PlayKeepsInv` | kota/app/src/lib.rs:202-305 | the system invariant holds in every interleaving |
| `SystemTheorems.NobodyIsStranded` | kota/app/src/lib.rs:211-304 | in every reachable state a quorum has a finalization job queued or at work on a copy with a quorum, and a pending session a creation job, unless it gave up, with an error that names coins worth something other than what the spend pays for |
| `SystemTheorems.LogsAreSerial` | migrations/20260101000000_core_setup.sql:8-16 | every log ever stored is a log of the exact language, i.e. of a single-threaded run, and loads |
| `SystemTheorems.StepIsOneCommand` | core/coordination/src/jobs/mod.rs:154-174 | one step moves each stored log by at most one entity command |
| `SystemTheorems.FinalizedForEver` | core/coordination/src/jobs/finalization.rs:46-50 | logs never lose an event, and a finalized session keeps its transaction id and signers in every later state |
| `SystemTheorems.LogsResolve` | core/coordination/src/storage.rs:39-57 | in every reachable state each hash in a log resolves: the unsigned document to the document of the recorded spend on the wallet's descriptor, outputs included; a signature to that document completed by that signer; the final hash to the transaction with the recorded id, extracted from the combination of exactly the recorded signers' documents, the first prefix of the records that finalizes |
| `SystemTheorems.PolicyIsTheWallets` | core/coordination/src/psbt_session/entity.rs:595-622 | a session's threshold and keystores equal its wallet's, which is active, for ever after |
| `SystemTheorems.SignersAreKnown` | kota/app/src/lib.rs:262-270 | a signer resolved through the wallet is never an unknown keystore to the session |
| `SystemTheorems.SignatureAndJobTogether` | kota/app/src/lib.rs:281-304 | a commit of an upload changes exactly this: the request is over, the signature is appended if and only if it is new and the session has not moved since it was loaded, and a finalization job is added if and only if the signature is now or was already recorded |
| `SystemTheorems.ObservationCommits` | core/coordination/src/jobs/mod.rs:154-174 | committing an observation appends exactly the event the observation folds to, if and only if it is not redundant and the session has not moved since it was loaded; nothing else changes |
| `SystemTheorems.WithdrawalCommits` | core/coordination/src/psbt_session/entity.rs:362-388 | committing a cancellation appends it, with its user and reason, if and only if the session is pending, collecting or finalized, was never cancelled and has not moved since it was loaded; nothing else changes |
| `SystemTheorems.FinalizationSettlesIff` | core/coordination/src/jobs/finalization.rs:171-192 | the finalization job completes without a commit if and only if its copy has no quorum |
| `SystemTheorems.CreationSettlesIff` | core/coordination/src/jobs/psbt_creation.rs:155-192 | the creation job completes without a commit or giving up if and only if its copy is no longer pending |
| `SystemSteps.ProposalTakesEffectIff` | kota/app/src/lib.rs:202-228 | a proposal takes effect if and only if the wallet is stored, the spend proposable on it and the id free; it adds the one-event log of that proposal, with its spend and proposer, and one queued creation job, and changes nothing else |
| `SystemSteps.UploadOpensIff` | kota/app/src/lib.rs:262-270 | in every reachable state an upload is opened if and only if the user holds a keystore of the session's wallet, on the session as stored and bound to the fingerprint of exactly the key that user holds |
| `SystemSteps.UploadOfNothing` | kota/app/src/lib.rs:261 | no upload and no edit of a session that is not stored |
| `SystemSteps.EditOpens` | core/coordination/src/jobs/mod.rs:154-159 | an edit is opened on the session as stored and changes nothing else |
| `SystemSteps.DropCloses` | core/coordination/src/jobs/mod.rs:4-8 | an abandoned request is over and leaves no other trace |
| `SystemSteps.UploadStoresIff` | kota/app/src/lib.rs:272-279 | in every reachable state a submission is stored, as submitted, if and only if it is the session's own document completed by the bound signer; otherwise the request is over and nothing is stored |
| `SystemSteps.UploadTooEarly` | kota/app/src/lib.rs:272-274 | before there is a document to sign nothing is stored and the request is over |
| `SystemSteps.UploadRecordsIff` | kota/app/src/lib.rs:255-305 | one undisturbed upload from start to end, in every reachable state: recorded under the keystore the user holds, together with its finalization job, if and only if the session is collecting, that keystore has not signed and the submission is the session's document completed by it |
| `SystemSteps.CreationRuns` | core/coordination/src/jobs/psbt_creation.rs:38-68 | what a run of a loaded creation job changes, exactly: it stores the document of the spend and is ready to record it, gives up on unbalanced coins, starts over, or is finished because its copy is not pending |
| `SystemSteps.CreationWaits` | core/coordination/src/jobs/psbt_creation.rs:51-52 | without chain data a pending copy starts over and nothing is stored |
| `SystemSteps.FinalizationRuns` | core/coordination/src/jobs/finalization.rs:46-97 | what a run of a loaded finalization job changes, exactly; it is finished if and only if its copy has no quorum |
| `SystemSteps.JobRecordsIff` | core/coordination/src/jobs/finalization.rs:85-93 | in every reachable state a job that is ready records its document, or its signers if they are a threshold of distinct ones who signed, if and only if the session has not moved since it was loaded; otherwise it starts over and records nothing |
| `SystemProgress.PlanStuckIff` | core/coordination/src/jobs/finalization.rs:66-97 | a due session's search is stuck if and only if its signers do not fill a threshold of places in every script |
| `SystemProgress.EarlyQuorumIsRefused` | core/coordination/src/psbt_session/entity.rs:251-256 | when fewer signers than the threshold already fill the scripts, the job names only those and the session refuses: ThresholdNotMet, nothing changes |
| `SystemProgress.RunEndsIff` | core/coordination/src/jobs/finalization.rs:46-97 | one run on a due session finalizes it if and only if the signers are a script quorum and the first threshold - 1 are not; it then records the fewest, and otherwise changes nothing |
| `SystemProgress.CompressedEarlyIff` | core/coordination/src/wallet/entity.rs:269-276 | with signatures under compressed keys the quorum comes early if and only if at every coin one of the first threshold - 1 signers shares a point |
| `SystemProgress.QuorumFinishesIff` | core/coordination/src/jobs/finalization.rs:66-97 | progress: in every reachable state with a met threshold some finalization job's next undisturbed run finalizes the session if and only if the signers are a script quorum and the first threshold - 1 are not; the signers recorded are then the fewest, in recording order |
| `SystemProgress.DistinctPointsFinishIff` | core/coordination/src/jobs/finalization.rs:66-97 | where the wallet's keys derive distinct points at one of the coins, that is exactly a script quorum |
| `SystemProgress.CompressedFinishesIff` | core/coordination/src/jobs/finalization.rs:66-97 | with signatures under compressed keys a met threshold finalizes unless at every coin one of the first threshold - 1 signers shares a point, which the wallet's descriptor and the coins' indices show |
| `SystemProgress.RetryRecordsTheSame` | core/coordination/src/jobs/finalization.rs:66-97 | however many signatures arrive before a retry, it finds the same signers, transaction and id |
| `SystemProgress.EarlyQuorumIsFatal` | core/coordination/src/jobs/finalization.rs:66-97 | a session whose quorum came early is not finalized by any further steps of the platform |
| `SystemProgress.PendingOpensIff` | core/coordination/src/jobs/psbt_creation.rs:38-68 | progress: in every reachable state a pending session has a creation job, and unless it gave up its next undisturbed run on given coins opens the session if and only if the coins are known, derived and in range, the change derived, the payout within 64 bits, the two balanced, and the coins pay the script |
| `SystemLife.EveryWalletSpends` | kota/app/src/lib.rs:119-305 | liveness, from the empty state: for every wallet of usable keys with points of their own whose signers can sign, some steps reach a collecting session proposed on it and some the same session finalized |
| `SystemLife.PlatformIsInhabited` | kota/app/src/lib.rs:202-305 | on every network the platform reaches a stored collecting session, and a stored finalized one |
| `Limits.CollectingActivates` | core/coordination/src/wallet/entity.rs:236-302 | every valid policy whose participants submit keys with distinct fingerprints that form a descriptor becomes an active wallet of exactly those keys |
| `Limits.HardenedChangeRetriesForEver` | core/coordination/src/jobs/psbt_creation.rs:169-190 | witness, on every active wallet that has a key with a wildcard: an accepted proposal with a hardened change index, retried on all coins |
| `Limits.OversizedOutputsRetryForEver` | core/coordination/src/jobs/psbt_creation.rs:169-190 | witness, on every active wallet: an accepted proposal paying 2^64, retried on all coins |
| `Limits.IndefiniteKeyRetriesForEver` | core/coordination/src/jobs/psbt_creation.rs:169-190 | witness: a wallet whose key is multi-path activates, and every proposal on it is retried on all coins |
| `Limits.SharedKeyWallet` | core/coordination/src/wallet/entity.rs:269-276 | witness: a two-of-three wallet made by its commands that activates with two keys that derive the same points, such as one extended key under two origins or a key and its own child |
| `Limits.SharedKeyIsRefused` | core/coordination/src/psbt_session/entity.rs:251-256 | witness: that wallet's session, built by the creation plan, with two compressed signatures; the job names one signer and the session answers ThresholdNotMet(1, 2) |
| `Limits.UncompressedFormDoesNotCount` | core/coordination/src/psbt.rs:241-250 | witness: a one-of-one wallet's session, built by the creation plan, whose accepted signature under the uncompressed key meets the threshold and leaves the job stuck |

## Left out

Assumptions the theorems rest on:

- Digests and scripts are symbolic: equal ones come from equal preimages, so a digest never collides.
- The point a key has at an index is an arbitrary function of the key body (key material and path) and the index (`Crypto.child`); a key without a wildcard has one point at every index. The declared origin is not part of the body.
- A key turns into one key per index by its kind: with an unhardened wildcard at every unhardened index, without a wildcard at every index, and never if it is multi-path or has a hardened step or wildcard after the key. These are the documented rules of `at_derivation_index`; the negligible failures of BIP-32 child derivation are not modelled.
- The map of key sources is filled key by key in descriptor order and a later key replaces an earlier one of the same point; a script point has one place for each key that derives it, and one signature fills them all.
- Sighash computation, signature verification, transaction extraction and transaction ids are arbitrary functions of their arguments (`Crypto`); `SighashCache` is a memo and has no counterpart.
- `QuorumFinishesIff`, the results that follow from it and `MetThresholdEndsFinalIff` assume that extraction succeeds on a finalizable document; where it fails the job is retried. The witnesses on signatures also assume that every key can sign every message.
- `finalize` on a `wsh(sortedmulti)` input succeeds when at least threshold places of the script hold a compressed key with a signature; miniscript's satisfier is not part of this model.
- The event store accepts an append exactly when its sequence numbers are free, commits it together with the jobs enqueued in the same transaction, and keeps descriptor fingerprints unique.
- The job executor runs a failed or crashed job again, without a limit on attempts; back-off and attempt limits of the executor crate are not part of this model.
- Key strings identify keys and contain no comma, parenthesis or `#`; the fingerprint results say so in their preconditions.
- Nothing deletes blobs while sessions refer to them: `BlobStore.Delete` is modelled, and the platform's steps do not use it.

Not modelled:

- PSBT and transaction byte formats, `parse_psbt` and its size cap: documents are parsed values, and every PSBT field that is only ever compared is folded into one.
- Wallets with 2^32 or more participants, where the 32-bit completion count wraps: `CompletesPolicy` has the truncation and `CompletesExactly` says what it decides for every count; the wallet invariant requires fewer.
- The checks inside `new_wsh_sortedmulti` other than the limit of 20 keys and a per-key flag for keys a segwit script refuses.
- Iteration order of signature maps: the loops visit entries in any order, and the results hold for each.
- Address parsing and script-dependent dust: an address carries its networks, script and dust threshold; the P2WSH change threshold is the constant 330.
- Session cancellation has no use case in the application layer; the platform model lets anybody request it at any time.
- The hex codecs of hashes and fingerprints, error conversions, tracing, job registration, configuration, clocks and development scripts carry no coordination logic.
- Read-only queries such as `missing_keystores`, `pending_participants` and `descriptor_fingerprints`.
- SessionEntity.PsbtSession: the executor and use cases load a fresh object for every attempt, so sharing one object between two of them is not modelled; the platform model works on values.
- Creation.RunPsbtCreation: takes the wallet and the funding data as arguments, because both come from services outside the model; either may be missing.
