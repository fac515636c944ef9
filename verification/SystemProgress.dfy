/** Progress: what the next undisturbed run of a job achieves in every reachable
    state, exactly, and which sessions can never be finalized. */
module SystemProgress {
  import opened Foundation
  import opened Documents
  import opened Sorting
  import opened Storage
  import opened Submission
  import opened Combination
  import opened SessionModel
  import opened SessionHistory
  import opened Spending
  import opened Quorum
  import opened Keystores
  import opened System
  import opened SystemSafety
  import opened SystemInvariant
  import opened SystemTheorems
  import C = Creation
  import F = Finalization
  import R = Registry

  // --- what a stored quorum looks like ---

  /** Each record stands for a signature event of the log. */
  lemma {:induction false} RecordsAreEvents(es: Log)
    ensures forall k :: 0 <= k < |SignaturesIn(es)| ==>
              SignatureAdded(SignaturesIn(es)[k].fingerprint, SignaturesIn(es)[k].signedHash) in es
  {
    if es != [] {
      RecordsAreEvents(es[..|es| - 1]);
      assert es == es[..|es| - 1] + [es[|es| - 1]];
    }
  }

  lemma RecordIsHonest(x: Facts, es: Log, k: nat)
    requires EventsOk(x, es) && k < |SignaturesIn(es)|
    ensures EventOk(x, LatestUnsignedHash(es), SignaturesIn(es),
                    SignatureAdded(SignaturesIn(es)[k].fingerprint, SignaturesIn(es)[k].signedHash))
  {
    RecordsAreEvents(es);
  }

  lemma FinalizationIsAnEvent(es: Log)
    requires LatestFinalization(es).Some?
    ensures Finalized(LatestFinalization(es).value) in es
  {
    if !es[|es| - 1].Finalized? { FinalizationIsAnEvent(es[..|es| - 1]); }
  }

  /** The session's unsigned document, built from the descriptor, and one accepted
      document for each recorded signer. */
  ghost predicate HasDocuments(x: Facts, s: Session, unsigned: Psbt) {
    && s.unsignedHash.Some? && F.LoadPsbt(x.blobs, s.unsignedHash.value) == Success(unsigned)
    && C.Built(x.crypto.child, s.policy, x.descriptor, unsigned)
    && AllLoad(x.blobs, s.signatures)
    && HonestRecords(x.crypto, x.blobs, unsigned, s.signatures, DocsOf(x.blobs, s.signatures))
    && SameInputs(unsigned, DocsOf(x.blobs, s.signatures))
  }

  lemma DocumentsAreStored(x: Facts, s: Session) returns (unsigned: Psbt)
    requires Hydrated(s) && s.unsignedHash.Some? && EventsOk(x, s.events) && x.policy == s.policy
    ensures HasDocuments(x, s, unsigned)
  {
    hide C.Built;
    C.UnsignedIsAnEvent(s.events);
    var i :| 0 <= i < |s.events| && s.events[i] == PsbtCreated(s.unsignedHash.value);
    assert EventOk(x, s.unsignedHash, s.signatures, s.events[i]);
    unsigned := F.LoadPsbt(x.blobs, s.unsignedHash.value).value;
    forall k | 0 <= k < |s.signatures|
      ensures F.LoadPsbt(x.blobs, s.signatures[k].signedHash).Success?
      ensures Acceptable(x.crypto, unsigned, F.LoadPsbt(x.blobs, s.signatures[k].signedHash).value,
                         s.signatures[k].fingerprint)
    {
      RecordIsHonest(x, s.events, k);
    }
    assert Accepted(x.crypto, unsigned, Signers(s.signatures), DocsOf(x.blobs, s.signatures));
  }

  /** The recorded signers fill the script ... */
  ghost predicate ScriptQuorum(x: Facts, s: Session, unsigned: Psbt)
    requires AllLoad(x.blobs, s.signatures) && SameInputs(unsigned, DocsOf(x.blobs, s.signatures))
  {
    QuorumAt(unsigned, DocsOf(x.blobs, s.signatures), s.policy.threshold)
  }

  /** ... and one fewer than the threshold already do. */
  ghost predicate EarlyQuorum(x: Facts, s: Session, unsigned: Psbt)
    requires AllLoad(x.blobs, s.signatures) && SameInputs(unsigned, DocsOf(x.blobs, s.signatures))
    requires 0 < s.policy.threshold <= |s.signatures|
  {
    QuorumAt(unsigned, DocsOf(x.blobs, s.signatures)[..s.policy.threshold - 1], s.policy.threshold)
  }

  // --- one run of the finalization job ---

  /** A collecting session with a met threshold, and its stored documents. */
  ghost predicate Due(x: Facts, s: Session, unsigned: Psbt) {
    && Hydrated(s) && StatusOf(s.events) == Collecting && ThresholdMet(s) && s.finalization.None?
    && HasDocuments(x, s, unsigned)
  }

  lemma PlanStuckIff(x: Facts, s: Session, unsigned: Psbt)
    requires Due(x, s, unsigned) && ExtractionWorks(x.crypto)
    ensures F.PlanFor(x.crypto, x.blobs, s).Stuck? <==> !ScriptQuorum(x, s, unsigned)
    ensures F.PlanFor(x.crypto, x.blobs, s).Record? <==> ScriptQuorum(x, s, unsigned)
  {
    hide C.Built;
    C.BuiltIsMultisig(x.crypto.child, s.policy, x.descriptor, unsigned);
    var docs := DocsOf(x.blobs, s.signatures);
    FinalizationCompletesIff(x.crypto, x.blobs, unsigned, s.policy.threshold, s.signatures, docs);
    if F.SearchPrefix(x.crypto, x.blobs, unsigned, unsigned, s.signatures, []).Complete? {
      UnsignedIsSafe(x.crypto, unsigned);
      F.SearchIsSafe(x.crypto, x.blobs, unsigned, unsigned, s.signatures, []);
    }
  }

  /** The job names the fewest recorded signers, in recording order, that fill the
      script; they reach the threshold exactly when one fewer does not fill it. */
  lemma PlannedSigners(x: Facts, s: Session, unsigned: Psbt) returns (n: nat)
    requires Due(x, s, unsigned) && ExtractionWorks(x.crypto) && ScriptQuorum(x, s, unsigned)
    ensures 0 < n <= |s.signatures|
    ensures LeastQuorum(unsigned, DocsOf(x.blobs, s.signatures), s.policy.threshold, n)
    ensures F.PlanFor(x.crypto, x.blobs, s).Record?
    ensures F.PlanFor(x.crypto, x.blobs, s).used == Signers(s.signatures)[..n]
    ensures n >= s.policy.threshold <==> !EarlyQuorum(x, s, unsigned)
  {
    PlanStuckIff(x, s, unsigned);
    n := LeastSigners(x, s, unsigned);
    PlanNames(x, s, unsigned, n);
  }

  lemma LeastSigners(x: Facts, s: Session, unsigned: Psbt) returns (n: nat)
    requires Due(x, s, unsigned) && ScriptQuorum(x, s, unsigned)
    ensures LeastQuorum(unsigned, DocsOf(x.blobs, s.signatures), s.policy.threshold, n)
    ensures n >= s.policy.threshold <==> !EarlyQuorum(x, s, unsigned)
  {
    var docs := DocsOf(x.blobs, s.signatures);
    assert docs[..|docs|] == docs;
    n := LeastQuorumExists(unsigned, docs, s.policy.threshold, |docs|);
    LeastQuorumReachesThreshold(unsigned, docs, s.policy.threshold, n);
  }

  lemma PlanNames(x: Facts, s: Session, unsigned: Psbt, n: nat)
    requires Due(x, s, unsigned) && F.PlanFor(x.crypto, x.blobs, s).Record?
    requires LeastQuorum(unsigned, DocsOf(x.blobs, s.signatures), s.policy.threshold, n)
    ensures F.PlanFor(x.crypto, x.blobs, s).used == Signers(s.signatures)[..n]
  {
    hide C.Built;
    C.BuiltIsMultisig(x.crypto.child, s.policy, x.descriptor, unsigned);
    SearchFindsLeastQuorum(x.crypto, x.blobs, unsigned, s.policy.threshold, s.signatures,
                           DocsOf(x.blobs, s.signatures), n);
  }

  /** What a run makes of the session's log. */
  ghost function AfterRun(x: Facts, s: Session): Log {
    var plan := F.PlanFor(x.crypto, x.blobs, s);
    if plan.Record? then Finalize(s, plan.txid, Sha256(TxBlob(plan.tx)), plan.used).0.events else s.events
  }

  /** The finalization in `after` names the least quorum of recorded signers, sorted. */
  ghost predicate LeastSignersRecorded(x: Facts, s: Session, unsigned: Psbt, after: Log)
    requires AllLoad(x.blobs, s.signatures) && SameInputs(unsigned, DocsOf(x.blobs, s.signatures))
  {
    exists n: nat ::
      && n <= |s.signatures|
      && LeastQuorum(unsigned, DocsOf(x.blobs, s.signatures), s.policy.threshold, n)
      && LatestFinalization(after).Some?
      && LatestFinalization(after).value.sigsUsed == Sort(Signers(s.signatures)[..n], FingerprintLe)
  }

  lemma FinalizedWith(s: Session, txid: Txid, hash: PsbtHash, used: seq<Fingerprint>)
    requires Finalize(s, txid, hash, used).1.Executed?
    ensures LatestFinalization(Finalize(s, txid, hash, used).0.events)
            == Some(FinalizationRecord(txid, hash, Sort(used, FingerprintLe)))
  {
    FinalizeRecords(s, txid, hash, used);
    var r := FinalizationRecord(txid, hash, Sort(used, FingerprintLe));
    assert Finalize(s, txid, hash, used).0.events == s.events + [Finalized(r)];
  }

  lemma ReachedThresholdEnds(x: Facts, s: Session, unsigned: Psbt)
    requires Due(x, s, unsigned) && ExtractionWorks(x.crypto)
    requires ScriptQuorum(x, s, unsigned) && !EarlyQuorum(x, s, unsigned)
    ensures StatusOf(AfterRun(x, s)) == FinalizedStatus && LeastSignersRecorded(x, s, unsigned, AfterRun(x, s))
  {
    var n := PlannedSigners(x, s, unsigned);
    var plan := F.PlanFor(x.crypto, x.blobs, s);
    FirstSignersFinalize(s, plan.txid, Sha256(TxBlob(plan.tx)), n);
    FinalizedWith(s, plan.txid, Sha256(TxBlob(plan.tx)), plan.used);
  }

  /** The failing case: the session refuses the signers the job found, because they
      are fewer than the threshold. */
  lemma EarlyQuorumIsRefused(x: Facts, s: Session, unsigned: Psbt) returns (n: nat)
    requires Due(x, s, unsigned) && ExtractionWorks(x.crypto)
    requires ScriptQuorum(x, s, unsigned) && EarlyQuorum(x, s, unsigned)
    ensures 0 < n < s.policy.threshold
    ensures var plan := F.PlanFor(x.crypto, x.blobs, s);
            && plan.Record? && plan.used == Signers(s.signatures)[..n]
            && Finalize(s, plan.txid, Sha256(TxBlob(plan.tx)), plan.used)
               == (s, Failed(ThresholdNotMet(n, s.policy.threshold)))
    ensures AfterRun(x, s) == s.events
  {
    n := PlannedSigners(x, s, unsigned);
    var plan := F.PlanFor(x.crypto, x.blobs, s);
    FewerSignersRefused(s, plan.txid, Sha256(TxBlob(plan.tx)), n);
  }

  /** Exact condition: one run ends the collection if and only if the recorded
      signers fill the script and one fewer than the threshold do not; otherwise
      the log stays as it is. */
  lemma RunEndsIff(x: Facts, s: Session, unsigned: Psbt)
    requires Due(x, s, unsigned) && ExtractionWorks(x.crypto)
    ensures var ends := ScriptQuorum(x, s, unsigned) && !EarlyQuorum(x, s, unsigned);
            && (StatusOf(AfterRun(x, s)) == FinalizedStatus <==> ends)
            && (ends ==> LeastSignersRecorded(x, s, unsigned, AfterRun(x, s)))
            && (!ends ==> AfterRun(x, s) == s.events)
  {
    PlanStuckIff(x, s, unsigned);
    if ScriptQuorum(x, s, unsigned) {
      if EarlyQuorum(x, s, unsigned) {
        var n := EarlyQuorumIsRefused(x, s, unsigned);
      } else {
        ReachedThresholdEnds(x, s, unsigned);
      }
    }
  }

  // --- the condition on the wallet ---

  /** At one coin of the spend the wallet's keys derive distinct points. */
  ghost predicate SomeCoinDistinct(child: Derivation, d: Descriptor, unsigned: Psbt) {
    exists i, utxo :: 0 <= i < |unsigned.inputs| && unsigned.inputs[i] == InputFor(child, d, utxo)
                      && DistinctPoints(child, d.keys, utxo.index)
  }

  /** Then fewer than `threshold` signers never fill the script. */
  lemma DistinctNeedThreshold(c: Crypto, p: Policy, d: Descriptor, unsigned: Psbt, signers: seq<Fingerprint>,
                              docs: seq<Psbt>)
    requires C.Built(c.child, p, d, unsigned) && FingerprintNamesKey(d.keys) && SomeCoinDistinct(c.child, d, unsigned)
    requires Accepted(c, unsigned, signers, docs) && SameInputs(unsigned, docs) && |docs| < p.threshold
    ensures !QuorumAt(unsigned, docs, p.threshold)
  {
    var i, utxo :| 0 <= i < |unsigned.inputs| && unsigned.inputs[i] == InputFor(c.child, d, utxo)
                   && DistinctPoints(c.child, d.keys, utxo.index);
    C.DistinctPointsSingleKeys(c.child, d, utxo);
    SingleKeysNeedThreshold(c, unsigned, p.threshold, signers, docs, i);
  }

  lemma DistinctNeverEarly(x: Facts, s: Session, unsigned: Psbt)
    requires Due(x, s, unsigned) && FingerprintNamesKey(x.descriptor.keys)
    requires SomeCoinDistinct(x.crypto.child, x.descriptor, unsigned)
    ensures !EarlyQuorum(x, s, unsigned)
  {
    hide MultisigSpend, SomeCoinDistinct, FingerprintNamesKey, Acceptable, QuorumAt, C.Built;
    var docs, n := DocsOf(x.blobs, s.signatures), s.policy.threshold - 1;
    AcceptedPrefix(x.crypto, unsigned, Signers(s.signatures), docs, n);
    DistinctNeedThreshold(x.crypto, s.policy, x.descriptor, unsigned, Signers(s.signatures)[..n], docs[..n]);
  }

  /** With compressed-key signatures the recorded signers always fill the script,
      and one fewer than the threshold do exactly when at every coin one of them
      holds a key whose point is another keystore's too. */
  lemma CompressedEarlyIff(x: Facts, s: Session, unsigned: Psbt)
    requires Due(x, s, unsigned) && FingerprintNamesKey(x.descriptor.keys)
    requires AllCount(unsigned, DocsOf(x.blobs, s.signatures))
    ensures ScriptQuorum(x, s, unsigned)
    ensures EarlyQuorum(x, s, unsigned) <==> FirstSignersShare(x, s, unsigned)
  {
    CompressedFills(x, s, unsigned);
    FirstShareIff(x, s, unsigned);
    if FirstSignersShare(x, s, unsigned) {
      EverywhereIsEarly(x, s, unsigned);
    } else {
      NotEverywhereNotEarly(x, s, unsigned);
    }
  }

  /** At every coin of the spend, one of the first `threshold - 1` signers holds a
      key whose point another keystore of the wallet has too. */
  ghost predicate FirstSignersShare(x: Facts, s: Session, unsigned: Psbt)
    requires 0 < s.policy.threshold <= |s.signatures|
  {
    C.AnySharesEverywhere(x.crypto.child, x.descriptor, unsigned, Signers(s.signatures)[..s.policy.threshold - 1])
  }

  lemma FirstShareIff(x: Facts, s: Session, unsigned: Psbt)
    requires Due(x, s, unsigned) && FingerprintNamesKey(x.descriptor.keys)
    ensures SharedEverywhere(unsigned, Signers(s.signatures)[..s.policy.threshold - 1])
            <==> FirstSignersShare(x, s, unsigned)
  {
    var docs, n := DocsOf(x.blobs, s.signatures), s.policy.threshold - 1;
    AcceptedPrefix(x.crypto, unsigned, Signers(s.signatures), docs, n);
    C.SharedEverywhereIff(x.crypto, s.policy, x.descriptor, unsigned, Signers(s.signatures)[..n], docs[..n]);
  }

  lemma CompressedFills(x: Facts, s: Session, unsigned: Psbt)
    requires Due(x, s, unsigned) && AllCount(unsigned, DocsOf(x.blobs, s.signatures))
    ensures ScriptQuorum(x, s, unsigned)
  {
    CompressedQuorum(x.crypto, unsigned, s.policy.threshold, Signers(s.signatures), DocsOf(x.blobs, s.signatures));
    QuorumPersists(unsigned, DocsOf(x.blobs, s.signatures), s.policy.threshold, s.policy.threshold);
  }

  lemma EverywhereIsEarly(x: Facts, s: Session, unsigned: Psbt)
    requires Due(x, s, unsigned) && AllCount(unsigned, DocsOf(x.blobs, s.signatures))
    requires SharedEverywhere(unsigned, Signers(s.signatures)[..s.policy.threshold - 1])
    ensures EarlyQuorum(x, s, unsigned)
  {
    CompressedQuorum(x.crypto, unsigned, s.policy.threshold, Signers(s.signatures), DocsOf(x.blobs, s.signatures));
  }

  lemma NotEverywhereNotEarly(x: Facts, s: Session, unsigned: Psbt)
    requires Due(x, s, unsigned) && AllCount(unsigned, DocsOf(x.blobs, s.signatures))
    requires !SharedEverywhere(unsigned, Signers(s.signatures)[..s.policy.threshold - 1])
    ensures !EarlyQuorum(x, s, unsigned)
  {
    CompressedQuorum(x.crypto, unsigned, s.policy.threshold, Signers(s.signatures), DocsOf(x.blobs, s.signatures));
  }

  // --- an undisturbed run in the platform ---

  /** A fresh run of job `j`, whatever it was doing: it crashes, loads, works and
      commits without interference. */
  function Rerun(j: nat, funding: Option<seq<FundingUtxo>>): seq<Step> {
    [CrashJob(j), LoadJob(j), WorkJob(j, funding), CommitJob(j)]
  }

  lemma PlayRerun(env: Env, a: Sys, j: nat, funding: Option<seq<FundingUtxo>>)
    ensures Play(env, a, Rerun(j, funding))
            == Effect(env, Effect(env, Effect(env, Effect(env, a, CrashJob(j)), LoadJob(j)), WorkJob(j, funding)),
                      CommitJob(j))
  {
    var b := Effect(env, a, CrashJob(j));
    var c := Effect(env, b, LoadJob(j));
    var d := Effect(env, c, WorkJob(j, funding));
    var e := Effect(env, d, CommitJob(j));
    assert Rerun(j, funding)[1..] == [LoadJob(j), WorkJob(j, funding), CommitJob(j)];
    assert [LoadJob(j), WorkJob(j, funding), CommitJob(j)][1..] == [WorkJob(j, funding), CommitJob(j)];
    assert [WorkJob(j, funding), CommitJob(j)][1..] == [CommitJob(j)];
    assert [CommitJob(j)][1..] == [];
    assert Play(env, e, []) == e;
    assert Play(env, d, [CommitJob(j)]) == e;
    assert Play(env, c, [WorkJob(j, funding), CommitJob(j)]) == e;
    assert Play(env, b, [LoadJob(j), WorkJob(j, funding), CommitJob(j)]) == e;
  }

  /** The state in which a job that started over has loaded the current log. */
  function Reloaded(a: Sys, j: nat): Sys
    requires j < |a.jobs| && a.jobs[j].sid in a.logs
  {
    SetPhase(a, j, Loaded(a.logs[a.jobs[j].sid]))
  }

  lemma RerunLoads(env: Env, a: Sys, j: nat)
    requires j < |a.jobs| && !a.jobs[j].phase.Complete? && a.jobs[j].sid in a.logs
    ensures Effect(env, Effect(env, a, CrashJob(j)), LoadJob(j)) == Reloaded(a, j)
  {
    CrashEffect(env, a, j);
    assert SetPhase(a, j, Queued).jobs[j] == Job(a.jobs[j].kind, a.jobs[j].sid, Queued);
  }

  /** An attempt on an up-to-date copy is the command itself. */
  lemma AttemptOnCurrent(logs: Logs, sid: SessionId, s: Session, c: Command)
    requires sid in logs && Replay(logs[sid]) == Some(s)
    ensures var after := Attempt(logs, sid, logs[sid], c).0;
            sid in after && after[sid] == Apply(s, c).0.events
  {
    ApplyAppends(s, c);
    var t := Apply(s, c).0;
    assert logs[sid] + t.events[|logs[sid]|..] == t.events;
  }

  lemma ReadyCommits(env: Env, d: Sys, j: nat, s: Session, c: Command)
    requires j < |d.jobs| && d.jobs[j].sid in d.logs && Replay(d.logs[d.jobs[j].sid]) == Some(s)
    requires d.jobs[j].phase == Ready(d.logs[d.jobs[j].sid], c)
    ensures d.jobs[j].sid in Effect(env, d, CommitJob(j)).logs
    ensures Effect(env, d, CommitJob(j)).logs[d.jobs[j].sid] == Apply(s, c).0.events
  {
    JobCommitEffect(env, d, j);
    AttemptOnCurrent(d.logs, d.jobs[j].sid, s, c);
  }

  lemma NotReadyStays(env: Env, d: Sys, j: nat)
    requires j < |d.jobs| && !d.jobs[j].phase.Ready?
    ensures Effect(env, d, CommitJob(j)) == d
  {
  }

  /** The log a rerun of a finalization job leaves behind. */
  lemma RerunFinalization(env: Env, a: Sys, j: nat, x: Facts)
    requires j < |a.jobs| && a.jobs[j].kind.FinalizationJob? && !a.jobs[j].phase.Complete?
    requires a.jobs[j].sid in a.logs && Replay(a.logs[a.jobs[j].sid]).Some?
    requires x.crypto == env.crypto && x.blobs == a.blobs
    ensures var sid := a.jobs[j].sid;
            && sid in Play(env, a, Rerun(j, None)).logs
            && Play(env, a, Rerun(j, None)).logs[sid] == AfterRun(x, Replay(a.logs[sid]).value)
  {
    var es := a.logs[a.jobs[j].sid];
    var s := Replay(es).value;
    var c := Reloaded(a, j);
    PlayRerun(env, a, j, None);
    RerunLoads(env, a, j);
    WorkEffect(env, c, j, None);
    var plan := F.PlanFor(env.crypto, a.blobs, s);
    var d := AfterFinalization(c, j, es, plan);
    if plan.Record? {
      ReadyCommits(env, d, j, s, DoFinalize(plan.txid, Sha256(TxBlob(plan.tx)), plan.used));
    } else {
      NotReadyStays(env, d, j);
    }
  }

  lemma DueInReached(env: Env, a: Sys, sid: SessionId) returns (unsigned: Psbt)
    requires sid in a.logs && Met(a.logs[sid])
    requires LogOk(env, a.registry.wallets, a.blobs, sid, a.logs[sid])
    ensures Replay(a.logs[sid]).Some?
    ensures Due(SnapshotFacts(env, a, a.logs[sid]), Replay(a.logs[sid]).value, unsigned)
  {
    var es := a.logs[sid];
    ReachableLoads(es);
    CollectingHasPsbt(es);
    CollectingNotFinal(es);
    unsigned := DocumentsAreStored(SnapshotFacts(env, a, es), Replay(es).value);
  }

  /** Progress, and its exact condition: a session whose threshold is met always
      has a finalization job whose next undisturbed run ends the collection if and
      only if the recorded signers fill the script and one fewer than the threshold
      do not; then the signers recorded are the fewest, in recording order, and
      otherwise the log stays as it is. */
  lemma QuorumFinishesIff(env: Env, a: Sys, sid: SessionId) returns (j: nat, unsigned: Psbt)
    requires Reached(env, a) && sid in a.logs && Met(a.logs[sid]) && ExtractionWorks(env.crypto)
    ensures j < |a.jobs| && Finalizes(a.jobs[j], sid)
    ensures LatestPolicy(a.logs[sid]).Some? && Replay(a.logs[sid]).Some?
    ensures sid in Play(env, a, Rerun(j, None)).logs
    ensures var x, s := SnapshotFacts(env, a, a.logs[sid]), Replay(a.logs[sid]).value;
            var after := Play(env, a, Rerun(j, None)).logs[sid];
            && Due(x, s, unsigned)
            && (var ends := ScriptQuorum(x, s, unsigned) && !EarlyQuorum(x, s, unsigned);
                && (StatusOf(after) == FinalizedStatus <==> ends)
                && (ends ==> LeastSignersRecorded(x, s, unsigned, after))
                && (!ends ==> after == a.logs[sid]))
  {
    ReachedInv(env, a);
    j, unsigned := QuorumFinishesFrom(env, a, sid);
  }

  lemma QuorumFinishesFrom(env: Env, a: Sys, sid: SessionId) returns (j: nat, unsigned: Psbt)
    requires sid in a.logs && Met(a.logs[sid]) && ExtractionWorks(env.crypto)
    requires LogOk(env, a.registry.wallets, a.blobs, sid, a.logs[sid]) && Served(a.jobs, sid, a.logs[sid])
    ensures j < |a.jobs| && Finalizes(a.jobs[j], sid)
    ensures Replay(a.logs[sid]).Some? && sid in Play(env, a, Rerun(j, None)).logs
    ensures var x, s := SnapshotFacts(env, a, a.logs[sid]), Replay(a.logs[sid]).value;
            var after := Play(env, a, Rerun(j, None)).logs[sid];
            && Due(x, s, unsigned)
            && (var ends := ScriptQuorum(x, s, unsigned) && !EarlyQuorum(x, s, unsigned);
                && (StatusOf(after) == FinalizedStatus <==> ends)
                && (ends ==> LeastSignersRecorded(x, s, unsigned, after))
                && (!ends ==> after == a.logs[sid]))
  {
    hide C.Built, HasDocuments, LogOk;
    j :| 0 <= j < |a.jobs| && Finalizes(a.jobs[j], sid);
    unsigned := DueInReached(env, a, sid);
    var x, s := SnapshotFacts(env, a, a.logs[sid]), Replay(a.logs[sid]).value;
    RerunFinalization(env, a, j, x);
    RunEndsIff(x, s, unsigned);
  }

  lemma WalletNames(env: Env, a: Sys, sid: SessionId)
    requires Reached(env, a) && sid in a.logs
    ensures LatestPolicy(a.logs[sid]).Some?
    ensures FingerprintNamesKey(SnapshotFacts(env, a, a.logs[sid]).descriptor.keys)
  {
    ReachedInv(env, a);
    assert LogOk(env, a.registry.wallets, a.blobs, sid, a.logs[sid]);
    C.ActiveWalletKeys(a.registry.wallets[LatestPolicy(a.logs[sid]).value.walletId]);
  }

  /** Where the wallet's keys derive distinct points at one of the coins, a met
      threshold finishes exactly when the recorded signers fill the script. */
  lemma DistinctPointsFinishIff(env: Env, a: Sys, sid: SessionId) returns (j: nat, unsigned: Psbt)
    requires Reached(env, a) && sid in a.logs && Met(a.logs[sid]) && ExtractionWorks(env.crypto)
    ensures j < |a.jobs| && Finalizes(a.jobs[j], sid) && sid in Play(env, a, Rerun(j, None)).logs
    ensures LatestPolicy(a.logs[sid]).Some? && Replay(a.logs[sid]).Some?
    ensures var x, s := SnapshotFacts(env, a, a.logs[sid]), Replay(a.logs[sid]).value;
            && Due(x, s, unsigned)
            && (SomeCoinDistinct(env.crypto.child, x.descriptor, unsigned) ==>
                  (StatusOf(Play(env, a, Rerun(j, None)).logs[sid]) == FinalizedStatus
                   <==> ScriptQuorum(x, s, unsigned)))
  {
    j, unsigned := QuorumFinishesIff(env, a, sid);
    WalletNames(env, a, sid);
    var x, s := SnapshotFacts(env, a, a.logs[sid]), Replay(a.logs[sid]).value;
    if SomeCoinDistinct(env.crypto.child, x.descriptor, unsigned) { DistinctNeverEarly(x, s, unsigned); }
  }

  /** With compressed-key signatures a met threshold finishes unless at every coin
      one of the first `threshold - 1` recorded signers holds a key whose point
      another keystore has too: a condition on the wallet's descriptor, the coins'
      indices and the order of the signers alone. */
  lemma CompressedFinishesIff(env: Env, a: Sys, sid: SessionId) returns (j: nat, unsigned: Psbt)
    requires Reached(env, a) && sid in a.logs && Met(a.logs[sid]) && ExtractionWorks(env.crypto)
    ensures j < |a.jobs| && Finalizes(a.jobs[j], sid) && sid in Play(env, a, Rerun(j, None)).logs
    ensures LatestPolicy(a.logs[sid]).Some? && Replay(a.logs[sid]).Some?
    ensures var x, s := SnapshotFacts(env, a, a.logs[sid]), Replay(a.logs[sid]).value;
            && Due(x, s, unsigned)
            && (AllCount(unsigned, DocsOf(x.blobs, s.signatures)) ==>
                  (StatusOf(Play(env, a, Rerun(j, None)).logs[sid]) == FinalizedStatus
                   <==> !FirstSignersShare(x, s, unsigned)))
  {
    j, unsigned := QuorumFinishesIff(env, a, sid);
    WalletNames(env, a, sid);
    var x, s := SnapshotFacts(env, a, a.logs[sid]), Replay(a.logs[sid]).value;
    if AllCount(unsigned, DocsOf(x.blobs, s.signatures)) { CompressedEarlyIff(x, s, unsigned); }
  }

  // --- the same transaction, however late the retry ---

  lemma {:induction false} SearchGrows(c: Crypto, a: Blobs, b: Blobs, unsigned: Psbt, combined: Psbt,
                                       records: seq<SignatureRecord>, used: seq<Fingerprint>)
    requires BlobsGrow(a, b) && |combined.inputs| == |unsigned.inputs|
    requires F.SearchPrefix(c, a, unsigned, combined, records, used).Complete?
    ensures F.SearchPrefix(c, b, unsigned, combined, records, used)
            == F.SearchPrefix(c, a, unsigned, combined, records, used)
    decreases |records|
  {
    var doc := F.LoadPsbt(a, records[0].signedHash).value;
    assert F.LoadPsbt(b, records[0].signedHash) == Success(doc);
    var combined' := CombineWith(combined, doc);
    if !F.Finalizable(combined') {
      SearchGrows(c, a, b, unsigned, combined', records[1..], used + [records[0].fingerprint]);
    }
  }

  lemma OthersKeepBlobs(env: Env, a: Sys, step: Step)
    requires !step.PutUpload? && !step.WorkJob?
    ensures Effect(env, a, step).blobs == a.blobs
  {
  }

  lemma WorkGrowsBlobs(env: Env, a: Sys, j: nat, funding: Option<seq<FundingUtxo>>)
    ensures BlobsGrow(a.blobs, Effect(env, a, WorkJob(j, funding)).blobs)
  {
    if j < |a.jobs| && a.jobs[j].phase.Loaded? && Replay(a.jobs[j].phase.snapshot).Some? {
      WorkEffect(env, a, j, funding);
    }
  }

  lemma StepGrowsBlobs(env: Env, a: Sys, step: Step)
    ensures BlobsGrow(a.blobs, Effect(env, a, step).blobs)
  {
    match step
    case WorkJob(j, funding) => WorkGrowsBlobs(env, a, j, funding);
    case PutUpload(k, signed) => if k < |a.requests| && a.requests[k].Signing? { PutEffect(env, a, k, signed); }
    case _ => OthersKeepBlobs(env, a, step);
  }

  lemma {:induction false} PlayGrowsBlobs(env: Env, a: Sys, steps: seq<Step>)
    ensures BlobsGrow(a.blobs, Play(env, a, steps).blobs)
    decreases |steps|
  {
    if steps != [] {
      StepGrowsBlobs(env, a, steps[0]);
      PlayGrowsBlobs(env, Effect(env, a, steps[0]), steps[1..]);
    }
  }

  /** What a log holds that a longer log of the same session holds too. */
  lemma LaterLog(env: Env, wallets: R.Stored, blobs: Blobs, sid: SessionId, es: Log, later: Log)
    requires LogOk(env, wallets, blobs, sid, later) && es <= later && LatestUnsignedHash(es).Some?
    ensures LatestUnsignedHash(later) == LatestUnsignedHash(es)
    ensures SignaturesIn(es) <= SignaturesIn(later)
  {
    assert later == es + later[|es|..];
    ReplayConcat(es, later[|es|..]);
    C.UnsignedIsAnEvent(es);
    var i :| 0 <= i < |es| && es[i] == PsbtCreated(LatestUnsignedHash(es).value);
    assert later[i] == es[i];
    assert EventOk(FactsOf(env, wallets, blobs, LatestPolicy(later).value), LatestUnsignedHash(later),
                   SignaturesIn(later), later[i]);
  }

  lemma PlanIsStable(c: Crypto, a: Blobs, b: Blobs, s: Session, t: Session)
    requires BlobsGrow(a, b) && F.PlanFor(c, a, s).Record?
    requires StatusOf(t.events) == Collecting && t.finalization.None? && t.policy == s.policy
    requires t.unsignedHash == s.unsignedHash && s.signatures <= t.signatures
    ensures F.PlanFor(c, b, t) == F.PlanFor(c, a, s)
  {
    var unsigned := F.LoadPsbt(a, s.unsignedHash.value).value;
    assert F.LoadPsbt(b, t.unsignedHash.value) == Success(unsigned);
    SearchGrows(c, a, b, unsigned, unsigned, s.signatures, []);
    var later := t.signatures[|s.signatures|..];
    assert t.signatures == s.signatures + later;
    LaterSignaturesIgnored(c, b, unsigned, unsigned, s.signatures, later, []);
  }

  /** However many signatures arrive and whatever else happens before a retry: as
      long as the session is still collecting, the retry finds the same signers,
      the same transaction and the same id. */
  lemma RetryRecordsTheSame(env: Env, a: Sys, steps: seq<Step>, sid: SessionId)
    requires Reached(env, a) && sid in a.logs && Replay(a.logs[sid]).Some?
    requires F.PlanFor(env.crypto, a.blobs, Replay(a.logs[sid]).value).Record?
    requires sid in Play(env, a, steps).logs && StatusOf(Play(env, a, steps).logs[sid]) == Collecting
    ensures Replay(Play(env, a, steps).logs[sid]).Some?
    ensures F.PlanFor(env.crypto, Play(env, a, steps).blobs, Replay(Play(env, a, steps).logs[sid]).value)
            == F.PlanFor(env.crypto, a.blobs, Replay(a.logs[sid]).value)
  {
    var b := Play(env, a, steps);
    var es, later := a.logs[sid], b.logs[sid];
    LaterState(env, a, steps, sid);
    ReachableLoads(later);
    CollectingNotFinal(later);
    LaterLog(env, b.registry.wallets, b.blobs, sid, es, later);
    PlanIsStable(env.crypto, a.blobs, b.blobs, Replay(es).value, Replay(later).value);
  }

  lemma LaterState(env: Env, a: Sys, steps: seq<Step>, sid: SessionId)
    requires Reached(env, a) && sid in a.logs
    ensures var b := Play(env, a, steps);
            && sid in b.logs && a.logs[sid] <= b.logs[sid] && BlobsGrow(a.blobs, b.blobs)
            && LogOk(env, b.registry.wallets, b.blobs, sid, b.logs[sid])
            && LatestPolicy(b.logs[sid]) == LatestPolicy(a.logs[sid])
  {
    ReachedInv(env, a);
    PlayKeepsInv(env, a, steps);
    PlayGrowsBlobs(env, a, steps);
    FinalizedForEver(env, a, steps, sid);
    PolicyIsFixed(a.logs[sid], Play(env, a, steps).logs[sid]);
  }

  // --- sessions that can never be finalized ---

  /** A stored finalization names at least a threshold of signers and is the first
      prefix to finalize, so one fewer than the threshold did not. */
  lemma FinalizedNotEarly(x: Facts, unsigned: Psbt, sigs: seq<SignatureRecord>, f: FinalizationRecord, t: nat)
    requires FinalTxOk(x, unsigned, sigs, f) && 0 < t <= |f.sigsUsed|
    ensures t <= |sigs| && AllLoad(x.blobs, sigs[..t - 1]) && SameInputs(unsigned, DocsOf(x.blobs, sigs[..t - 1]))
    ensures t > 1 ==> !F.Finalizable(CombineAll(unsigned, DocsOf(x.blobs, sigs[..t - 1])))
  {
    var n: nat, tx: FinalTx :| n <= |sigs| && FinalizedBy(x, unsigned, sigs[..n], tx, f);
    SortedLength(Signers(sigs[..n]));
    ShorterPrefix(x.blobs, unsigned, sigs, n, t - 1);
  }

  lemma SortedLength(s: seq<Fingerprint>)
    ensures |Sort(s, FingerprintLe)| == |s|
  {
    FingerprintOrder();
    SortSorts(s, FingerprintLe);
    assert |multiset(Sort(s, FingerprintLe))| == |multiset(s)|;
  }

  /** Of the first records to finalize, no shorter prefix does. */
  lemma ShorterPrefix(blobs: Blobs, unsigned: Psbt, sigs: seq<SignatureRecord>, n: nat, m: nat)
    requires m < n <= |sigs| && AllLoad(blobs, sigs[..n]) && SameInputs(unsigned, DocsOf(blobs, sigs[..n]))
    requires FirstToFinalize(unsigned, DocsOf(blobs, sigs[..n]))
    ensures AllLoad(blobs, sigs[..m]) && SameInputs(unsigned, DocsOf(blobs, sigs[..m]))
    ensures m > 0 ==> !F.Finalizable(CombineAll(unsigned, DocsOf(blobs, sigs[..m])))
  {
    var docs := DocsOf(blobs, sigs[..n]);
    forall k | 0 <= k < m ensures sigs[..m][k] == sigs[..n][k] {}
    assert DocsOf(blobs, sigs[..m]) == docs[..m];
    assert docs[..n - 1][..m] == docs[..m];
  }

  /** The documents of the first records, seen from later. */
  lemma SameDocuments(a: Blobs, b: Blobs, sigs: seq<SignatureRecord>, later: seq<SignatureRecord>, n: nat)
    requires BlobsGrow(a, b) && AllLoad(a, sigs) && sigs <= later && n <= |sigs|
    ensures AllLoad(b, later[..n]) && DocsOf(b, later[..n]) == DocsOf(a, sigs)[..n]
  {
    forall k | 0 <= k < n ensures F.LoadPsbt(b, later[..n][k].signedHash) == F.LoadPsbt(a, sigs[k].signedHash) {
      assert later[..n][k] == sigs[k];
    }
  }

  lemma EmptyIsNoQuorum(unsigned: Psbt, t: nat)
    requires t > 0 && |unsigned.inputs| > 0
    ensures !QuorumAt(unsigned, [], t)
  {
    assert Tally(unsigned, [], 0) == 0;
  }

  /** An early quorum, as the script sees it. */
  lemma EarlyFinalizes(x: Facts, s: Session, unsigned: Psbt)
    requires Due(x, s, unsigned) && EarlyQuorum(x, s, unsigned)
    ensures s.policy.threshold > 1
    ensures F.Finalizable(CombineAll(unsigned, DocsOf(x.blobs, s.signatures)[..s.policy.threshold - 1]))
  {
    var docs, t := DocsOf(x.blobs, s.signatures), s.policy.threshold;
    EmptyIsNoQuorum(unsigned, t);
    assert docs[..0] == [];
    AcceptedPrefix(x.crypto, unsigned, Signers(s.signatures), docs, t - 1);
    FinalizableIffQuorum(x.crypto, unsigned, t, Signers(s.signatures)[..t - 1], docs[..t - 1]);
  }

  /** The failing family is shut out for good: a session whose first signers fill
      the script before the threshold is reached is never finalized, whatever
      signatures and retries are still to come. */
  lemma EarlyQuorumIsFatal(env: Env, a: Sys, steps: seq<Step>, sid: SessionId, unsigned: Psbt)
    requires Reached(env, a) && sid in a.logs && LatestPolicy(a.logs[sid]).Some? && Replay(a.logs[sid]).Some?
    requires var x, s := SnapshotFacts(env, a, a.logs[sid]), Replay(a.logs[sid]).value;
             Due(x, s, unsigned) && EarlyQuorum(x, s, unsigned)
    ensures sid in Play(env, a, steps).logs
    ensures LatestFinalization(Play(env, a, steps).logs[sid]).None?
  {
    var b := Play(env, a, steps);
    LaterState(env, a, steps, sid);
    LaterLog(env, b.registry.wallets, b.blobs, sid, a.logs[sid], b.logs[sid]);
    ReachableLoads(b.logs[sid]);
    EarlyNeverFinal(SnapshotFacts(env, a, a.logs[sid]), SnapshotFacts(env, b, b.logs[sid]),
                    Replay(a.logs[sid]).value, Replay(b.logs[sid]).value, unsigned);
  }

  /** A loaded session's finalization is one of a threshold of recorded signers. */
  lemma FinalizationHolds(x: Facts, s: Session)
    requires Hydrated(s) && EventsOk(x, s.events) && s.finalization.Some?
    ensures 0 < s.policy.threshold <= |s.finalization.value.sigsUsed|
    ensures s.unsignedHash.Some? && F.LoadPsbt(x.blobs, s.unsignedHash.value).Success?
    ensures FinalTxOk(x, F.LoadPsbt(x.blobs, s.unsignedHash.value).value, s.signatures, s.finalization.value)
  {
    hide C.Built, FinalTxOk, Acceptable;
    FinalizationIsAnEvent(s.events);
    var i :| 0 <= i < |s.events| && s.events[i] == Finalized(s.finalization.value);
    assert EventOk(x, s.unsignedHash, s.signatures, s.events[i]);
  }

  lemma EarlyNeverFinal(x: Facts, y: Facts, s: Session, later: Session, unsigned: Psbt)
    requires Due(x, s, unsigned) && EarlyQuorum(x, s, unsigned) && BlobsGrow(x.blobs, y.blobs)
    requires Hydrated(later) && EventsOk(y, later.events) && later.policy == s.policy
    requires later.unsignedHash == s.unsignedHash && s.signatures <= later.signatures
    ensures later.finalization.None?
  {
    hide C.Built, EventsOk, FinalTxOk, Hydrated, QuorumAt, F.Finalizable;
    if later.finalization.Some? {
      var t := s.policy.threshold;
      FinalizationHolds(y, later);
      FinalizedNotEarly(y, unsigned, later.signatures, later.finalization.value, t);
      SameDocuments(x.blobs, y.blobs, s.signatures, later.signatures, t - 1);
      EarlyFinalizes(x, s, unsigned);
    }
  }

  // --- one run of the creation job ---

  /** The log a rerun of a creation job leaves behind. */
  lemma RerunCreation(env: Env, a: Sys, j: nat, funding: Option<seq<FundingUtxo>>)
    requires j < |a.jobs| && a.jobs[j].kind.CreationJob? && !a.jobs[j].phase.Complete?
    requires a.jobs[j].sid in a.logs && Replay(a.logs[a.jobs[j].sid]).Some?
    ensures var sid := a.jobs[j].sid;
            var s := Replay(a.logs[sid]).value;
            var plan := C.PlanFor(env.crypto.child, s, WalletOf(a, s.policy.walletId), funding, env.network);
            && sid in Play(env, a, Rerun(j, funding)).logs
            && Play(env, a, Rerun(j, funding)).logs[sid]
               == if plan.Record? then RecordPsbtCreated(s, Sha256(PsbtBlob(plan.psbt))).0.events else a.logs[sid]
  {
    var es := a.logs[a.jobs[j].sid];
    var s := Replay(es).value;
    var c := Reloaded(a, j);
    PlayRerun(env, a, j, funding);
    RerunLoads(env, a, j);
    WorkEffect(env, c, j, funding);
    var plan := C.PlanFor(env.crypto.child, s, WalletOf(a, s.policy.walletId), funding, env.network);
    var d := AfterCreation(c, j, es, plan);
    if plan.Record? {
      ReadyCommits(env, d, j, s, DoRecordPsbtCreated(Sha256(PsbtBlob(plan.psbt))));
    } else {
      NotReadyStays(env, d, j);
    }
  }

  /** The wallet and the coins allow the session's spend to be built. */
  ghost predicate CanBuild(child: Derivation, spend: SpendSpec, d: Descriptor, funding: seq<FundingUtxo>) {
    && CoinsInRange(spend, d, funding) && Payable(spend, d)
    && C.Balanced(spend, funding) && CoinsPay(child, spend, d, funding)
  }

  lemma PendingRecords(s: Session, hash: PsbtHash)
    requires Hydrated(s) && StatusOf(s.events) == Pending
    ensures StatusOf(RecordPsbtCreated(s, hash).0.events) == Collecting && s.unsignedHash.None?
  {
    C.PendingIsFresh(s.events);
    ExecutedStatus(s, DoRecordPsbtCreated(hash));
  }

  /** Progress of proposals, and its exact condition: a pending session has a
      creation job whose next undisturbed run on given coins opens the collection
      if and only if the wallet derives every coin and the change, the coins are
      known and in range, what the spend pays for fits 64 bits, the two are equal in
      value, and every coin pays the wallet; unless that job gave up before, which it does only on coins that do not add
      up. */
  lemma PendingOpensIff(env: Env, a: Sys, sid: SessionId, funding: seq<FundingUtxo>) returns (j: nat)
    requires Reached(env, a) && sid in a.logs && StatusOf(a.logs[sid]) == Pending
    ensures j < |a.jobs| && Creates(a.jobs[j], sid)
    ensures LatestPolicy(a.logs[sid]).Some? && sid in Play(env, a, Rerun(j, Some(funding))).logs
    ensures var x, after := SnapshotFacts(env, a, a.logs[sid]), Play(env, a, Rerun(j, Some(funding))).logs[sid];
            !a.jobs[j].phase.Complete? ==>
              && (StatusOf(after) == Collecting <==> CanBuild(env.crypto.child, x.policy.spend, x.descriptor, funding))
              && (StatusOf(after) != Collecting ==> after == a.logs[sid])
  {
    ReachedLog(env, a, sid);
    j :| 0 <= j < |a.jobs| && Creates(a.jobs[j], sid);
    LaterState(env, a, Rerun(j, Some(funding)), sid);
    if !a.jobs[j].phase.Complete? { OpensIff(env, a, j, funding); }
  }

  lemma OpensIff(env: Env, a: Sys, j: nat, funding: seq<FundingUtxo>)
    requires j < |a.jobs| && a.jobs[j].kind.CreationJob? && !a.jobs[j].phase.Complete?
    requires a.jobs[j].sid in a.logs && StatusOf(a.logs[a.jobs[j].sid]) == Pending
    requires LogOk(env, a.registry.wallets, a.blobs, a.jobs[j].sid, a.logs[a.jobs[j].sid])
    ensures var sid := a.jobs[j].sid;
            && sid in Play(env, a, Rerun(j, Some(funding))).logs
            && (var x, after := SnapshotFacts(env, a, a.logs[sid]), Play(env, a, Rerun(j, Some(funding))).logs[sid];
                && (StatusOf(after) == Collecting
                    <==> CanBuild(env.crypto.child, x.policy.spend, x.descriptor, funding))
                && (StatusOf(after) != Collecting ==> after == a.logs[sid]))
  {
    var es := a.logs[a.jobs[j].sid];
    ReachableLoads(es);
    var s := Replay(es).value;
    var w := a.registry.wallets[s.policy.walletId];
    RerunCreation(env, a, j, Some(funding));
    var plan := C.PlanFor(env.crypto.child, s, WalletOf(a, s.policy.walletId), Some(funding), env.network);
    PendingRecords(s, Sha256(OtherBlob(0)));
    C.CreationOutcomeIff(env.crypto.child, s, w, funding, env.network);
    if plan.Record? { PendingRecords(s, Sha256(PsbtBlob(plan.psbt))); }
  }
}
