/** What every step of the platform changes, exactly, and that it changes nothing
    else: in the platform's own terms, not in those of its step function. */
module SystemSteps {
  import opened Foundation
  import opened Documents
  import opened Storage
  import opened Submission
  import opened Spending
  import opened SpendDocument
  import opened SessionModel
  import opened SessionHistory
  import opened SessionAnswers
  import opened UseCases
  import opened System
  import opened SystemSafety
  import opened SystemInvariant
  import opened SystemTheorems
  import opened SystemProgress
  import C = Creation
  import F = Finalization
  import P = Proposal
  import W = WalletModel
  import WA = WalletAnswers

  // --- proposals ---

  /** A proposal takes effect exactly on a stored wallet it is proposable on, under a
      fresh id: it stores the log of that proposal, whole, and enqueues its creation
      job in the same commit. */
  lemma ProposalTakesEffectIff(env: Env, a: Sys, id: SessionId, walletId: WalletId, user: UserId, spend: SpendSpec)
      returns (p: Policy)
    ensures var ok := && id !in a.logs && walletId in a.registry.wallets
                      && P.Proposable(a.registry.wallets[walletId], spend);
            var b := Effect(env, a, Propose(id, walletId, user, spend));
            && (!ok ==> b == a)
            && (ok ==>
                  && P.Snapshots(p, id, a.registry.wallets[walletId], user, spend)
                  && b == Sys(a.registry, a.logs[id := [Initialized(p)]], a.blobs,
                              a.jobs + [Job(CreationJob, id, Queued)], a.requests))
  {
    p := Policy(0, 0, 0, SpendSpec([], [], 0, None), 0, []);
    if walletId in a.registry.wallets {
      p := P.SnapshotOf(id, a.registry.wallets[walletId], user, spend);
      P.SnapshotMeaning(id, a.registry.wallets[walletId], user, spend);
    }
  }

  // --- uploads and edits ---

  /** An upload is opened exactly for a user who holds a keystore of the session's
      wallet, on the session as it is stored, and is bound to that keystore: to its
      declared origin, or to the key's own fingerprint if it declares none. */
  lemma UploadOpensIff(env: Env, a: Sys, sid: SessionId, user: UserId)
    requires Reached(env, a) && sid in a.logs
    ensures LatestPolicy(a.logs[sid]).Some? && LatestPolicy(a.logs[sid]).value.walletId in a.registry.wallets
    ensures var w := a.registry.wallets[LatestPolicy(a.logs[sid]).value.walletId];
            var b := Effect(env, a, StartUpload(sid, user));
            && (!WA.HoldsAny(w.events, user) ==> b == a)
            && (forall key :: WA.Holds(w.events, user, key) ==>
                  var fp := if key.origin.Some? then key.origin.value else key.body.fingerprint;
                  b == Sys(a.registry, a.logs, a.blobs, a.jobs, a.requests + [Signing(sid, a.logs[sid], fp)]))
  {
    ReachedLog(env, a, sid);
    ReachableLoads(a.logs[sid]);
    WA.BoundToOwnKey(a.registry.wallets[LatestPolicy(a.logs[sid]).value.walletId], user);
  }

  lemma UploadOfNothing(env: Env, a: Sys, sid: SessionId, user: UserId)
    requires sid !in a.logs
    ensures Effect(env, a, StartUpload(sid, user)) == a && Effect(env, a, StartEdit(sid)) == a
  {
  }

  lemma EditOpens(env: Env, a: Sys, sid: SessionId)
    requires sid in a.logs
    ensures Effect(env, a, StartEdit(sid))
            == Sys(a.registry, a.logs, a.blobs, a.jobs, a.requests + [Editing(sid, a.logs[sid])])
  {
  }

  lemma DropCloses(env: Env, a: Sys, k: nat)
    ensures Effect(env, a, Drop(k))
            == if k < |a.requests| then Sys(a.registry, a.logs, a.blobs, a.jobs, a.requests[k := Closed]) else a
  {
  }

  /** The submitted document is stored, as it was submitted, exactly when it is the
      platform's own document completed by that signer; otherwise the request is over. */
  lemma UploadStoresIff(env: Env, a: Sys, k: nat, signed: Psbt, unsigned: Psbt)
    requires Reached(env, a) && k < |a.requests| && a.requests[k].Signing?
    requires LatestUnsignedHash(a.requests[k].snapshot) == Some(Sha256(PsbtBlob(unsigned)))
    ensures var q, h := a.requests[k], Sha256(PsbtBlob(signed));
            Effect(env, a, PutUpload(k, signed))
            == if Acceptable(env.crypto, unsigned, signed, q.fingerprint) then
                 Sys(a.registry, a.logs, a.blobs[h := PsbtBlob(signed)], a.jobs,
                     a.requests[k := Signed(q.sid, q.snapshot, q.fingerprint, h)])
               else Sys(a.registry, a.logs, a.blobs, a.jobs, a.requests[k := Closed])
  {
    var q := a.requests[k];
    ReachedRequest(env, a, k);
    ReachableLoads(q.snapshot);
    PutEffect(env, a, k, signed);
    OriginalIs(env, a, q.sid, q.snapshot, unsigned);
  }

  /** Before there is a document to sign nothing is stored. */
  lemma UploadTooEarly(env: Env, a: Sys, k: nat, signed: Psbt)
    requires Reached(env, a) && k < |a.requests| && a.requests[k].Signing?
    requires LatestUnsignedHash(a.requests[k].snapshot).None?
    ensures Effect(env, a, PutUpload(k, signed))
            == Sys(a.registry, a.logs, a.blobs, a.jobs, a.requests[k := Closed])
  {
    PutEffect(env, a, k, signed);
  }

  /** The document a loaded session's signers were given is stored. */
  lemma OriginalIs(env: Env, a: Sys, sid: SessionId, snapshot: Log, unsigned: Psbt)
    requires SnapshotOk(env, a, sid, snapshot) && Replay(snapshot).Some?
    requires LatestUnsignedHash(snapshot) == Some(Sha256(PsbtBlob(unsigned)))
    ensures Original(a.blobs, Replay(snapshot).value) == Some(unsigned)
  {
    C.UnsignedIsAnEvent(snapshot);
    var i :| 0 <= i < |snapshot| && snapshot[i] == PsbtCreated(Sha256(PsbtBlob(unsigned)));
    assert EventOk(SnapshotFacts(env, a, snapshot), LatestUnsignedHash(snapshot), SignaturesIn(snapshot), snapshot[i]);
    FetchMeaning(a.blobs, Sha256(PsbtBlob(unsigned)));
  }

  /** One undisturbed upload, start to end, in every reachable state: it is recorded
      under the keystore the user holds, with its finalization job, exactly when the
      session is collecting, that keystore has not signed, and the submission is the
      session's document completed by that signer. */
  lemma UploadRecordsIff(env: Env, a: Sys, sid: SessionId, user: UserId, key: Key, signed: Psbt, unsigned: Psbt)
    requires Reached(env, a) && sid in a.logs && LatestUnsignedHash(a.logs[sid]) == Some(Sha256(PsbtBlob(unsigned)))
    requires LatestPolicy(a.logs[sid]).Some? && LatestPolicy(a.logs[sid]).value.walletId in a.registry.wallets
    requires WA.Holds(a.registry.wallets[LatestPolicy(a.logs[sid]).value.walletId].events, user, key)
    ensures var k := |a.requests|;
            var b := Play(env, a, [StartUpload(sid, user), PutUpload(k, signed), CommitUpload(k)]);
            var fp := if key.origin.Some? then key.origin.value else key.body.fingerprint;
            var h := Sha256(PsbtBlob(signed));
            var accepted := Acceptable(env.crypto, unsigned, signed, fp);
            var records := accepted && StatusOf(a.logs[sid]) == Collecting && !SignedBy(a.logs[sid], fp);
            && b.registry == a.registry
            && b.logs == (if records then a.logs[sid := a.logs[sid] + [SignatureAdded(fp, h)]] else a.logs)
            && b.blobs == (if accepted then a.blobs[h := PsbtBlob(signed)] else a.blobs)
            && b.jobs == (if records || (accepted && SignedBy(a.logs[sid], fp))
                          then a.jobs + [Job(FinalizationJob, sid, Queued)] else a.jobs)
  {
    var k := |a.requests|;
    var fp := if key.origin.Some? then key.origin.value else key.body.fingerprint;
    UploadOpensIff(env, a, sid, user);
    StepReached(env, a, StartUpload(sid, user));
    var begun := Effect(env, a, StartUpload(sid, user));
    UploadStoresIff(env, begun, k, signed, unsigned);
    StepReached(env, begun, PutUpload(k, signed));
    var stored := Effect(env, begun, PutUpload(k, signed));
    if Acceptable(env.crypto, unsigned, signed, fp) {
      UploadEnds(env, a, stored, sid, k, fp, Sha256(PsbtBlob(signed)));
    }
    ThreeSteps(env, a, StartUpload(sid, user), PutUpload(k, signed), CommitUpload(k));
  }

  lemma ThreeSteps(env: Env, a: Sys, x: Step, y: Step, z: Step)
    ensures Play(env, a, [x, y, z]) == Effect(env, Effect(env, Effect(env, a, x), y), z)
  {
    var b := Effect(env, a, x);
    var c := Effect(env, b, y);
    assert [x, y, z][1..] == [y, z] && [y, z][1..] == [z] && [z][1..] == [];
    assert Play(env, Effect(env, c, z), []) == Effect(env, c, z);
    assert Play(env, c, [z]) == Effect(env, c, z);
    assert Play(env, b, [y, z]) == Effect(env, c, z);
  }

  lemma UploadEnds(env: Env, a: Sys, stored: Sys, sid: SessionId, k: nat, fp: Fingerprint, h: PsbtHash)
    requires Reached(env, stored) && k < |stored.requests| && sid in a.logs
    requires stored.logs == a.logs && stored.registry == a.registry && stored.jobs == a.jobs
    requires stored.requests[k] == Signed(sid, a.logs[sid], fp, h)
    ensures var b := Effect(env, stored, CommitUpload(k));
            var records := StatusOf(a.logs[sid]) == Collecting && !SignedBy(a.logs[sid], fp);
            && b.registry == a.registry && b.blobs == stored.blobs
            && b.logs == (if records then a.logs[sid := a.logs[sid] + [SignatureAdded(fp, h)]] else a.logs)
            && b.jobs == (if records || SignedBy(a.logs[sid], fp)
                          then a.jobs + [Job(FinalizationJob, sid, Queued)] else a.jobs)
  {
    SignatureAndJobTogether(env, stored, k);
    SignersAreKnown(env, stored, k);
    SignatureAnswers(Replay(a.logs[sid]).value, fp, h);
  }

  // --- jobs ---

  /** What a run of a loaded creation job comes to. On a copy that is not pending it
      is finished; otherwise it stores the document of the spend and is ready to
      record it if the wallet can build it from the coins, gives up on known and
      derived coins of another value, and starts over in every other case. */
  lemma CreationRuns(env: Env, a: Sys, j: nat, funding: seq<FundingUtxo>)
    requires Reached(env, a) && j < |a.jobs| && a.jobs[j].kind.CreationJob? && a.jobs[j].phase.Loaded?
    ensures LatestPolicy(a.jobs[j].phase.snapshot).Some?
    ensures var snapshot := a.jobs[j].phase.snapshot;
            var x, b := SnapshotFacts(env, a, snapshot), Effect(env, a, WorkJob(j, Some(funding)));
            var spend, d := x.policy.spend, x.descriptor;
            var coins := CoinsInRange(spend, d, funding) && Payable(spend, d);
            && b.registry == a.registry && b.logs == a.logs && b.requests == a.requests
            && |b.jobs| == |a.jobs| && b.jobs == a.jobs[j := a.jobs[j].(phase := b.jobs[j].phase)]
            && (StatusOf(snapshot) != Pending ==> b.jobs[j].phase == Finishing(Finished) && b.blobs == a.blobs)
            && (StatusOf(snapshot) == Pending ==>
                  if CanBuild(env.crypto.child, spend, d, funding) then
                    exists psbt :: Recording(env, snapshot, funding, spend, d, psbt, a, b, b.jobs[j].phase)
                  else
                    && b.blobs == a.blobs
                    && (coins && !C.Balanced(spend, funding) ==>
                          && b.jobs[j].phase.Finishing? && b.jobs[j].phase.verdict.GaveUp?
                          && C.Unbalanced(spend, b.jobs[j].phase.verdict.error))
                    && (!(coins && !C.Balanced(spend, funding)) ==> b.jobs[j].phase == Queued))
  {
    ReachedCopy(env, a, j);
    ReachedJob(env, a, j);
    WorkEffect(env, a, j, Some(funding));
    var snapshot := a.jobs[j].phase.snapshot;
    CreationRunsOn(env, a, j, snapshot, Replay(snapshot).value, funding);
  }

  /** The document is stored and waits to be recorded. */
  ghost predicate Recording(env: Env, snapshot: Log, funding: seq<FundingUtxo>, spend: SpendSpec, d: Descriptor,
                            psbt: Psbt, a: Sys, b: Sys, phase: Phase)
  {
    var h := Sha256(PsbtBlob(psbt));
    && DocumentOf(env.crypto.child, spend, d, funding, psbt)
    && b.blobs == a.blobs[h := PsbtBlob(psbt)] && phase == Ready(snapshot, DoRecordPsbtCreated(h))
  }

  lemma CreationRunsOn(env: Env, a: Sys, j: nat, snapshot: Log, s: Session, funding: seq<FundingUtxo>)
    requires j < |a.jobs| && SnapshotOk(env, a, a.jobs[j].sid, snapshot) && Replay(snapshot) == Some(s)
    ensures var x, b := SnapshotFacts(env, a, snapshot), WorkCreation(env, a, j, snapshot, s, Some(funding));
            var spend, d := x.policy.spend, x.descriptor;
            var coins := CoinsInRange(spend, d, funding) && Payable(spend, d);
            && b.registry == a.registry && b.logs == a.logs && b.requests == a.requests
            && |b.jobs| == |a.jobs| && b.jobs == a.jobs[j := a.jobs[j].(phase := b.jobs[j].phase)]
            && (StatusOf(snapshot) != Pending ==> b.jobs[j].phase == Finishing(Finished) && b.blobs == a.blobs)
            && (StatusOf(snapshot) == Pending ==>
                  if CanBuild(env.crypto.child, spend, d, funding) then
                    exists psbt :: Recording(env, snapshot, funding, spend, d, psbt, a, b, b.jobs[j].phase)
                  else
                    && b.blobs == a.blobs
                    && (coins && !C.Balanced(spend, funding) ==>
                          && b.jobs[j].phase.Finishing? && b.jobs[j].phase.verdict.GaveUp?
                          && C.Unbalanced(spend, b.jobs[j].phase.verdict.error))
                    && (!(coins && !C.Balanced(spend, funding)) ==> b.jobs[j].phase == Queued))
  {
    hide C.Built, DocumentOf, CoinsInRange, CoinsPay, Payable, C.Balanced, C.Unbalanced, EventsOk;
    var w := a.registry.wallets[s.policy.walletId];
    assert WalletOf(a, s.policy.walletId) == Some(w);
    var plan := C.PlanFor(env.crypto.child, s, Some(w), Some(funding), env.network);
    if StatusOf(snapshot) == Pending {
      C.PendingIsFresh(snapshot);
      C.CreationOutcomeIff(env.crypto.child, s, w, funding, env.network);
      if plan.Record? {
        BuildsDocument(env.crypto.child, s.policy.spend, W.DescriptorOf(w).value, funding, env.network);
        var b := AfterCreation(a, j, snapshot, plan);
        assert Recording(env, snapshot, funding, s.policy.spend, W.DescriptorOf(w).value, plan.psbt, a, b,
                         b.jobs[j].phase);
      }
    }
  }

  /** Without chain data a pending copy starts over. */
  lemma CreationWaits(env: Env, a: Sys, j: nat)
    requires Reached(env, a) && j < |a.jobs| && a.jobs[j].kind.CreationJob? && a.jobs[j].phase.Loaded?
    ensures Effect(env, a, WorkJob(j, None))
            == SetPhase(a, j, if StatusOf(a.jobs[j].phase.snapshot) == Pending then Queued else Finishing(Finished))
  {
    ReachedCopy(env, a, j);
    WorkEffect(env, a, j, None);
    var snapshot := a.jobs[j].phase.snapshot;
    if StatusOf(snapshot) == Pending { C.PendingIsFresh(snapshot); }
  }

  /** What a run of a loaded finalization job comes to: finished without a quorum,
      ready to record the transaction it stored, or starting over. */
  lemma FinalizationRuns(env: Env, a: Sys, j: nat, funding: Option<seq<FundingUtxo>>)
    requires Reached(env, a) && j < |a.jobs| && a.jobs[j].kind.FinalizationJob? && a.jobs[j].phase.Loaded?
    ensures var snapshot, b := a.jobs[j].phase.snapshot, Effect(env, a, WorkJob(j, funding));
            && Replay(snapshot).Some?
            && (var plan := F.PlanFor(env.crypto, a.blobs, Replay(snapshot).value);
                && (plan.Record? || plan.Stuck? <==> Met(snapshot))
                && b == (if plan.Record? then
                           SetPhase(a, j, Ready(snapshot, DoFinalize(plan.txid, Sha256(TxBlob(plan.tx)), plan.used)))
                             .(blobs := a.blobs[Sha256(TxBlob(plan.tx)) := TxBlob(plan.tx)])
                         else SetPhase(a, j, if plan.Stuck? then Queued else Finishing(Finished))))
  {
    ReachedCopy(env, a, j);
    WorkEffect(env, a, j, funding);
    var snapshot := a.jobs[j].phase.snapshot;
    if StatusOf(snapshot) == Collecting { CollectingNotFinal(snapshot); }
    FinalizationSettles(env, a, j, snapshot, Replay(snapshot).value);
  }

  /** A job that is ready records its result exactly when the session has not moved
      since it was loaded: the built document, or the signers it found if they reach
      the threshold. Otherwise it starts over and nothing is recorded. */
  lemma JobRecordsIff(env: Env, a: Sys, j: nat)
    requires Reached(env, a) && j < |a.jobs| && a.jobs[j].phase.Ready?
    ensures a.jobs[j].sid in a.logs && LatestPolicy(a.logs[a.jobs[j].sid]).Some?
    ensures var job := a.jobs[j];
            var sid, c, b := job.sid, job.phase.command, Effect(env, a, CommitJob(j));
            var recorded := SetPhase(a, j, Finishing(Finished));
            var current := a.logs[sid] == job.phase.snapshot;
            && (c.DoRecordPsbtCreated? ==>
                  b == if current then recorded.(logs := a.logs[sid := a.logs[sid] + [PsbtCreated(c.hash)]])
                       else SetPhase(a, j, Queued))
            && (c.DoFinalize? ==>
                  if current && FinalizesWith(Replay(a.logs[sid]), c.sigsUsed) then
                    exists signers ::
                      var record := FinalizationRecord(c.txid, c.hash, signers);
                      && Ascending(c.sigsUsed, signers)
                      && b == recorded.(logs := a.logs[sid := a.logs[sid] + [Finalized(record)]])
                  else b == SetPhase(a, j, Queued))
            && (c.DoRecordPsbtCreated? || c.DoFinalize?)
  {
    var job := a.jobs[j];
    ReachedJob(env, a, j);
    ReachedLog(env, a, job.sid);
    ReachableLoads(a.logs[job.sid]);
    JobRecordsOn(env, a, j);
  }

  /** At least a threshold of distinct signers who signed. */
  ghost predicate FinalizesWith(s: Option<Session>, used: seq<Fingerprint>) {
    && s.Some? && |used| >= s.value.policy.threshold && Distinct(used)
    && forall fp :: fp in used ==> HasSigned(s.value.signatures, fp)
  }

  lemma JobRecordsOn(env: Env, a: Sys, j: nat)
    requires j < |a.jobs| && a.jobs[j].phase.Ready? && JobOk(env, a, a.jobs[j]) && a.jobs[j].sid in a.logs
    ensures var job := a.jobs[j];
            var sid, c, b := job.sid, job.phase.command, Effect(env, a, CommitJob(j));
            var recorded := SetPhase(a, j, Finishing(Finished));
            var current := a.logs[sid] == job.phase.snapshot;
            && (c.DoRecordPsbtCreated? ==>
                  b == if current then recorded.(logs := a.logs[sid := a.logs[sid] + [PsbtCreated(c.hash)]])
                       else SetPhase(a, j, Queued))
            && (c.DoFinalize? ==>
                  if current && FinalizesWith(Replay(a.logs[sid]), c.sigsUsed) then
                    exists signers ::
                      var record := FinalizationRecord(c.txid, c.hash, signers);
                      && Ascending(c.sigsUsed, signers)
                      && b == recorded.(logs := a.logs[sid := a.logs[sid] + [Finalized(record)]])
                  else b == SetPhase(a, j, Queued))
            && (c.DoRecordPsbtCreated? || c.DoFinalize?)
  {
    var job := a.jobs[j];
    var snapshot, c := job.phase.snapshot, job.phase.command;
    JobCommitEffect(env, a, j);
    AttemptMeaning(env, a, job.sid, snapshot, c);
    ReachableLoads(snapshot);
    var s := Replay(snapshot).value;
    JobCommits(env, a, job);
    hide Ascending, HasSigned, EventsOk, Attempt;
    if c.DoRecordPsbtCreated? {
      C.PendingIsFresh(snapshot);
      CreationAnswers(s, c.hash);
      assert Apply(s, c) == RecordPsbtCreated(s, c.hash);
    } else {
      FinalizationAnswers(s, c.txid, c.hash, c.sigsUsed);
      FinalizeExecutesIff(s, c.txid, c.hash, c.sigsUsed);
      CollectingNotFinal(snapshot);
      FinalizedIffRecorded(snapshot);
      assert Apply(s, c) == Finalize(s, c.txid, c.hash, c.sigsUsed);
    }
  }
}
