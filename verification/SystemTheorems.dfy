/** What the invariant means for the platform: safety in every state that any
    interleaving of use cases, jobs, crashes and retries can reach. */
module SystemTheorems {
  import opened Foundation
  import opened Documents
  import opened SessionModel
  import opened SessionHistory
  import opened SessionLanguage
  import opened Spending
  import opened SessionAnswers
  import opened UseCases
  import opened System
  import opened SystemSafety
  import opened SystemInvariant
  import C = Creation
  import W = WalletModel

  ghost predicate Reached(env: Env, sys: Sys) {
    exists steps: seq<Step> :: Play(env, Initial(env), steps) == sys
  }

  lemma ReachedInv(env: Env, sys: Sys)
    requires Reached(env, sys)
    ensures Inv(env, sys)
  {
    var steps: seq<Step> :| Play(env, Initial(env), steps) == sys;
    PlayKeepsInv(env, Initial(env), steps);
  }

  lemma {:induction false} PlaySnoc(env: Env, a: Sys, steps: seq<Step>, step: Step)
    ensures Play(env, a, steps + [step]) == Effect(env, Play(env, a, steps), step)
    decreases |steps|
  {
    if steps == [] {
      assert [] + [step] == [step] && [step][1..] == [];
    } else {
      assert (steps + [step])[1..] == steps[1..] + [step];
      PlaySnoc(env, Effect(env, a, steps[0]), steps[1..], step);
    }
  }

  lemma StepReached(env: Env, a: Sys, step: Step)
    requires Reached(env, a)
    ensures Reached(env, Effect(env, a, step))
  {
    var steps: seq<Step> :| Play(env, Initial(env), steps) == a;
    PlaySnoc(env, Initial(env), steps, step);
    assert Play(env, Initial(env), steps + [step]) == Effect(env, a, step);
  }

  lemma {:induction false} PlayReached(env: Env, a: Sys, steps: seq<Step>)
    requires Reached(env, a)
    ensures Reached(env, Play(env, a, steps))
    decreases |steps|
  {
    if steps != [] {
      StepReached(env, a, steps[0]);
      PlayReached(env, Effect(env, a, steps[0]), steps[1..]);
    }
  }

  lemma ReachedJob(env: Env, sys: Sys, j: nat)
    requires Reached(env, sys) && j < |sys.jobs|
    ensures JobOk(env, sys, sys.jobs[j])
  {
    ReachedInv(env, sys);
  }

  lemma ReachedRequest(env: Env, sys: Sys, k: nat)
    requires Reached(env, sys) && k < |sys.requests|
    ensures RequestOk(env, sys, sys.requests[k])
  {
    ReachedInv(env, sys);
  }

  lemma ReachedLog(env: Env, sys: Sys, sid: SessionId)
    requires Reached(env, sys) && sid in sys.logs
    ensures LogOk(env, sys.registry.wallets, sys.blobs, sid, sys.logs[sid]) && Served(sys.jobs, sid, sys.logs[sid])
  {
    ReachedInv(env, sys);
  }

  /** The copy a job has loaded is a reachable log. */
  lemma ReachedCopy(env: Env, sys: Sys, j: nat)
    requires Reached(env, sys) && j < |sys.jobs| && sys.jobs[j].phase.Loaded?
    ensures Reachable(sys.jobs[j].phase.snapshot) && Replay(sys.jobs[j].phase.snapshot).Some?
  {
    ReachedJob(env, sys, j);
    ReachableLoads(sys.jobs[j].phase.snapshot);
  }

  // --- nobody is stranded ---

  /** A session with a quorum always has a finalization job that is queued or at
      work on a copy with a quorum; a pending session always has a creation job
      that is queued or at work on a pending copy, unless that job gave up, and it
      gives up only because the coins do not add up. */
  lemma NobodyIsStranded(env: Env, sys: Sys, sid: SessionId)
    requires Reached(env, sys) && sid in sys.logs
    ensures Met(sys.logs[sid]) ==> exists j :: 0 <= j < |sys.jobs| && Finalizes(sys.jobs[j], sid)
    ensures StatusOf(sys.logs[sid]) == Pending ==> exists j :: 0 <= j < |sys.jobs| && Creates(sys.jobs[j], sid)
    ensures LatestPolicy(sys.logs[sid]).Some?
    ensures forall j :: 0 <= j < |sys.jobs| && sys.jobs[j].sid == sid && Abandons(sys.jobs[j]) ==>
              C.Unbalanced(LatestPolicy(sys.logs[sid]).value.spend, sys.jobs[j].phase.verdict.error)
  {
    ReachedLog(env, sys, sid);
    forall j | 0 <= j < |sys.jobs| && sys.jobs[j].sid == sid && Abandons(sys.jobs[j])
      ensures C.Unbalanced(LatestPolicy(sys.logs[sid]).value.spend, sys.jobs[j].phase.verdict.error)
    {
      AbandonsUnbalanced(env, sys, j);
    }
  }

  lemma AbandonsUnbalanced(env: Env, sys: Sys, j: nat)
    requires Reached(env, sys) && j < |sys.jobs| && Abandons(sys.jobs[j]) && sys.jobs[j].sid in sys.logs
    ensures LatestPolicy(sys.logs[sys.jobs[j].sid]).Some?
    ensures C.Unbalanced(LatestPolicy(sys.logs[sys.jobs[j].sid]).value.spend, sys.jobs[j].phase.verdict.error)
  {
    ReachedJob(env, sys, j);
  }

  predicate Abandons(job: Job) {
    (job.phase.Finishing? || job.phase.Complete?) && job.phase.verdict.GaveUp?
  }

  // --- serialisation ---

  /** Every stored log is one that single-threaded commands could have written. */
  lemma LogsAreSerial(env: Env, sys: Sys, sid: SessionId)
    requires Reached(env, sys) && sid in sys.logs
    ensures Reachable(sys.logs[sid]) && InLanguage(sys.logs[sid])
    ensures Replay(sys.logs[sid]).Some? && Hydrated(Replay(sys.logs[sid]).value)
  {
    ReachedInv(env, sys);
    ReachableLoads(sys.logs[sid]);
    LogLanguage(sys.logs[sid]);
  }

  /** One step moves each log by at most one command. */
  ghost predicate OneCommand(before: Log, after: Log) {
    after == before
    || (Replay(before).Some? && exists c: Command :: after == Apply(Replay(before).value, c).0.events)
  }

  lemma StoredIsOneCommand(env: Env, a: Sys, sid: SessionId, snapshot: Log, c: Command)
    requires SnapshotOk(env, a, sid, snapshot)
    ensures var logs := Attempt(a.logs, sid, snapshot, c).0;
            forall s :: s in a.logs ==> s in logs && OneCommand(a.logs[s], logs[s])
  {
    AttemptMeaning(env, a, sid, snapshot, c);
    var (logs, attempted) := Attempt(a.logs, sid, snapshot, c);
    if attempted.Stored? {
      assert logs[sid] == Apply(Replay(a.logs[sid]).value, c).0.events;
    }
  }

  /** The copies in flight are in order. */
  lemma RequestCopyOk(env: Env, a: Sys, k: nat)
    requires RequestsOk(env, a) && k < |a.requests| && (a.requests[k].Signed? || a.requests[k].Editing?)
    ensures SnapshotOk(env, a, a.requests[k].sid, a.requests[k].snapshot)
  {
    assert RequestOk(env, a, a.requests[k]);
  }

  lemma JobCopyOk(env: Env, a: Sys, j: nat)
    requires JobsOk(env, a) && j < |a.jobs| && a.jobs[j].phase.Ready?
    ensures SnapshotOk(env, a, a.jobs[j].sid, a.jobs[j].phase.snapshot)
  {
    assert JobOk(env, a, a.jobs[j]);
  }

  lemma UploadIsOneCommand(env: Env, a: Sys, k: nat, sid: SessionId)
    requires RequestsOk(env, a) && sid in a.logs
    ensures sid in Effect(env, a, CommitUpload(k)).logs
    ensures OneCommand(a.logs[sid], Effect(env, a, CommitUpload(k)).logs[sid])
  {
    if k < |a.requests| && a.requests[k].Signed? {
      var q := a.requests[k];
      RequestCopyOk(env, a, k);
      UploadEffect(env, a, k);
      RejectedKeepsLogs(a.logs, q.sid, q.snapshot, DoAddSignature(q.fingerprint, q.hash));
      StoredIsOneCommand(env, a, q.sid, q.snapshot, DoAddSignature(q.fingerprint, q.hash));
    }
  }

  lemma EditIsOneCommand(env: Env, a: Sys, k: nat, e: Edit, sid: SessionId)
    requires RequestsOk(env, a) && sid in a.logs
    ensures sid in Effect(env, a, CommitEdit(k, e)).logs
    ensures OneCommand(a.logs[sid], Effect(env, a, CommitEdit(k, e)).logs[sid])
  {
    EditEffect(env, a, k, e);
    if k < |a.requests| && a.requests[k].Editing? {
      RequestCopyOk(env, a, k);
      StoredIsOneCommand(env, a, a.requests[k].sid, a.requests[k].snapshot, EditCommand(e));
    }
  }

  lemma JobIsOneCommand(env: Env, a: Sys, j: nat, sid: SessionId)
    requires JobsOk(env, a) && sid in a.logs
    ensures sid in Effect(env, a, CommitJob(j)).logs
    ensures OneCommand(a.logs[sid], Effect(env, a, CommitJob(j)).logs[sid])
  {
    if j < |a.jobs| && a.jobs[j].phase.Ready? {
      JobCopyOk(env, a, j);
      JobCommitEffect(env, a, j);
      StoredIsOneCommand(env, a, a.jobs[j].sid, a.jobs[j].phase.snapshot, a.jobs[j].phase.command);
    }
  }

  predicate Commits(step: Step) { step.CommitUpload? || step.CommitEdit? || step.CommitJob? }

  lemma OthersKeepLogs(env: Env, a: Sys, step: Step, sid: SessionId)
    requires sid in a.logs && !Commits(step)
    ensures sid in Effect(env, a, step).logs && Effect(env, a, step).logs[sid] == a.logs[sid]
  {
  }

  lemma StepIsOneCommand(env: Env, a: Sys, step: Step, sid: SessionId)
    requires RequestsOk(env, a) && JobsOk(env, a) && sid in a.logs
    ensures sid in Effect(env, a, step).logs && OneCommand(a.logs[sid], Effect(env, a, step).logs[sid])
  {
    match step
    case CommitUpload(k) => UploadIsOneCommand(env, a, k, sid);
    case CommitEdit(k, e) => EditIsOneCommand(env, a, k, e, sid);
    case CommitJob(j) => JobIsOneCommand(env, a, j, sid);
    case _ => OthersKeepLogs(env, a, step, sid);
  }

  lemma OneCommandKeepsFinalization(es: Log, after: Log)
    requires Reachable(es) && OneCommand(es, after)
    ensures es <= after
    ensures LatestFinalization(es).Some? ==> LatestFinalization(after) == LatestFinalization(es)
  {
    if after != es {
      ReachableLoads(es);
      var s := Replay(es).value;
      var c: Command :| after == Apply(s, c).0.events;
      ApplyAppends(s, c);
      ReachableStep(es, c);
      if s.finalization.Some? {
        FinalizationIsPermanent(s, [c]);
        assert Run(s, [c]) == Apply(s, c).0 by { assert [c][1..] == []; }
      }
    }
  }

  /** Once finalized, a session keeps its transaction id and its signers for ever,
      and no log ever loses an event. */
  lemma {:induction false} FinalizedForEver(env: Env, a: Sys, steps: seq<Step>, sid: SessionId)
    requires Inv(env, a) && sid in a.logs
    ensures sid in Play(env, a, steps).logs && a.logs[sid] <= Play(env, a, steps).logs[sid]
    ensures LatestFinalization(a.logs[sid]).Some? ==>
              LatestFinalization(Play(env, a, steps).logs[sid]) == LatestFinalization(a.logs[sid])
    decreases |steps|
  {
    if steps != [] {
      StepKeepsInv(env, a, steps[0]);
      StepIsOneCommand(env, a, steps[0], sid);
      OneCommandKeepsFinalization(a.logs[sid], Effect(env, a, steps[0]).logs[sid]);
      FinalizedForEver(env, Effect(env, a, steps[0]), steps[1..], sid);
    }
  }

  // --- blobs and logs agree ---

  /** Every hash in a stored log resolves: the unsigned document is one for the
      recorded spend from the wallet's descriptor, each signature document is the
      unsigned one completed by exactly that record's signer, and a finalization
      records the first signers whose documents finalize together, sorted, with
      the id of the stored transaction extracted from exactly those documents. */
  lemma LogsResolve(env: Env, sys: Sys, sid: SessionId, i: nat)
    requires Reached(env, sys) && sid in sys.logs && i < |sys.logs[sid]|
    ensures LatestPolicy(sys.logs[sid]).Some?
    ensures EventOk(FactsOf(env, sys.registry.wallets, sys.blobs, LatestPolicy(sys.logs[sid]).value),
                    LatestUnsignedHash(sys.logs[sid]), SignaturesIn(sys.logs[sid]), sys.logs[sid][i])
  {
    ReachedInv(env, sys);
    assert LogOk(env, sys.registry.wallets, sys.blobs, sid, sys.logs[sid]);
  }

  // --- the session and its wallet ---

  /** For ever after the proposal the session's threshold and keystores are its
      wallet's, and the wallet is active. */
  lemma PolicyIsTheWallets(env: Env, sys: Sys, sid: SessionId)
    requires Reached(env, sys) && sid in sys.logs
    ensures LatestPolicy(sys.logs[sid]).Some?
    ensures var p := LatestPolicy(sys.logs[sid]).value;
            && p.walletId in sys.registry.wallets
            && (var w := sys.registry.wallets[p.walletId];
                && W.StatusOf(w.events) == W.Active
                && p.threshold == w.policy.threshold
                && p.keystores == Fingerprints(W.KeystoresOf(w)))
  {
    ReachedInv(env, sys);
    assert LogOk(env, sys.registry.wallets, sys.blobs, sid, sys.logs[sid]);
  }

  /** A signer resolved through the wallet is never unknown to the session, at
      whatever point of its life the signature arrives. */
  lemma SignersAreKnown(env: Env, sys: Sys, k: nat)
    requires Reached(env, sys) && k < |sys.requests| && sys.requests[k].Signed?
    ensures var q := sys.requests[k];
            Replay(q.snapshot).Some?
            && (var outcome := AddSignature(Replay(q.snapshot).value, q.fingerprint, q.hash).1;
                outcome.Failed? ==> outcome.error == NotCollecting)
  {
    ReachedRequest(env, sys, k);
    var q := sys.requests[k];
    ReachableLoads(q.snapshot);
    KnownSigner(Replay(q.snapshot).value, q.fingerprint, q.hash);
  }

  lemma KnownSigner(s: Session, fp: Fingerprint, hash: PsbtHash)
    requires fp in s.policy.keystores
    ensures var outcome := AddSignature(s, fp, hash).1;
            outcome.Failed? ==> outcome.error == NotCollecting
  {
  }

  // --- what uploads and jobs decide ---

  /** A commit of an upload enqueues a finalization job if and only if the
      signature is now, or was already, recorded; it is recorded exactly when it
      is new and the session has not moved since it was loaded. */
  lemma SignatureAndJobTogether(env: Env, a: Sys, k: nat)
    requires Reached(env, a) && k < |a.requests| && a.requests[k].Signed?
    ensures var q := a.requests[k];
            && Replay(q.snapshot).Some? && q.sid in a.logs
            && (var b := Effect(env, a, CommitUpload(k));
                var outcome := AddSignature(Replay(q.snapshot).value, q.fingerprint, q.hash).1;
                var stored := outcome.Executed? && a.logs[q.sid] == q.snapshot;
                && b == a.(requests := a.requests[k := Closed],
                           logs := if stored
                                   then a.logs[q.sid := a.logs[q.sid] + [SignatureAdded(q.fingerprint, q.hash)]]
                                   else a.logs,
                           jobs := if stored || outcome.AlreadyApplied?
                                   then a.jobs + [Job(FinalizationJob, q.sid, Queued)] else a.jobs))
  {
    ReachedInv(env, a);
    RequestCopyOk(env, a, k);
    UploadCommits(env, a, k);
  }

  lemma UploadCommits(env: Env, a: Sys, k: nat)
    requires k < |a.requests| && a.requests[k].Signed?
    requires SnapshotOk(env, a, a.requests[k].sid, a.requests[k].snapshot)
    ensures var q := a.requests[k];
            && Replay(q.snapshot).Some?
            && (var b := Effect(env, a, CommitUpload(k));
                var outcome := AddSignature(Replay(q.snapshot).value, q.fingerprint, q.hash).1;
                var stored := outcome.Executed? && a.logs[q.sid] == q.snapshot;
                && b == a.(requests := a.requests[k := Closed],
                           logs := if stored
                                   then a.logs[q.sid := a.logs[q.sid] + [SignatureAdded(q.fingerprint, q.hash)]]
                                   else a.logs,
                           jobs := if stored || outcome.AlreadyApplied?
                                   then a.jobs + [Job(FinalizationJob, q.sid, Queued)] else a.jobs))
  {
    var q := a.requests[k];
    var c := DoAddSignature(q.fingerprint, q.hash);
    UploadEffect(env, a, k);
    AttemptMeaning(env, a, q.sid, q.snapshot, c);
    var s := Replay(q.snapshot).value;
    if Apply(s, c).1.Executed? { assert Apply(s, c).0.events == s.events + [SignatureAdded(q.fingerprint, q.hash)]; }
  }

  /** Committing an observation appends what the loaded session's answer to it is,
      exactly when there is something to append and the session has not moved since
      it was loaded; nothing else changes and the request is over. */
  lemma ObservationCommits(env: Env, a: Sys, k: nat, o: ChainObservation)
    requires Reached(env, a) && k < |a.requests| && a.requests[k].Editing?
    ensures var q, b := a.requests[k], Effect(env, a, CommitEdit(k, Observe(o)));
            && Replay(q.snapshot).Some? && q.sid in a.logs
            && (exists t, outcome ::
                  && Folded(Replay(q.snapshot).value, o, t, outcome)
                  && b == a.(requests := a.requests[k := Closed],
                             logs := if outcome == Executed && a.logs[q.sid] == q.snapshot
                                     then a.logs[q.sid := t.events] else a.logs))
  {
    var s, t, outcome := EditCommits(env, a, k, Observe(o));
    ObservationFolds(s, o);
  }

  /** The same for a cancellation, whose event names who withdrew and why. */
  lemma WithdrawalCommits(env: Env, a: Sys, k: nat, user: UserId, why: string)
    requires Reached(env, a) && k < |a.requests| && a.requests[k].Editing?
    ensures var q, b := a.requests[k], Effect(env, a, CommitEdit(k, Withdraw(user, why)));
            && Replay(q.snapshot).Some? && q.sid in a.logs
            && b == a.(requests := a.requests[k := Closed],
                       logs := if StatusOf(q.snapshot) in {Pending, Collecting, FinalizedStatus}
                                  && (forall i :: 0 <= i < |q.snapshot| ==> !q.snapshot[i].Cancelled?)
                                  && a.logs[q.sid] == q.snapshot
                               then a.logs[q.sid := q.snapshot + [Cancelled(user, why)]] else a.logs)
  {
    var s, t, outcome := EditCommits(env, a, k, Withdraw(user, why));
    CancellationAnswers(s, user, why);
  }

  lemma EditCommits(env: Env, a: Sys, k: nat, e: Edit) returns (s: Session, t: Session, outcome: Outcome)
    requires Reached(env, a) && k < |a.requests| && a.requests[k].Editing?
    ensures var q := a.requests[k];
            && Replay(q.snapshot) == Some(s) && q.sid in a.logs && (t, outcome) == Apply(s, EditCommand(e))
            && Effect(env, a, CommitEdit(k, e))
               == a.(requests := a.requests[k := Closed],
                     logs := if outcome == Executed && a.logs[q.sid] == q.snapshot then a.logs[q.sid := t.events]
                             else a.logs)
  {
    var q := a.requests[k];
    ReachedInv(env, a);
    RequestCopyOk(env, a, k);
    AttemptMeaning(env, a, q.sid, q.snapshot, EditCommand(e));
    EditEffect(env, a, k, e);
    s := Replay(q.snapshot).value;
    t, outcome := Apply(s, EditCommand(e)).0, Apply(s, EditCommand(e)).1;
  }

  /** A finalization job ends without a commit exactly when its copy has no quorum:
      it never polls, and it never drops a quorum. */
  lemma FinalizationSettlesIff(env: Env, a: Sys, j: nat, funding: Option<seq<FundingUtxo>>)
    requires Reached(env, a) && j < |a.jobs| && a.jobs[j].kind.FinalizationJob? && a.jobs[j].phase.Loaded?
    ensures j < |Effect(env, a, WorkJob(j, funding)).jobs|
    ensures Effect(env, a, WorkJob(j, funding)).jobs[j].phase.Finishing? <==> !Met(a.jobs[j].phase.snapshot)
  {
    ReachedCopy(env, a, j);
    WorkEffect(env, a, j, funding);
    FinalizationSettles(env, a, j, a.jobs[j].phase.snapshot, Replay(a.jobs[j].phase.snapshot).value);
  }

  lemma FinalizationSettles(env: Env, a: Sys, j: nat, snapshot: Log, s: Session)
    requires j < |a.jobs| && Reachable(snapshot) && Replay(snapshot) == Some(s)
    ensures WorkFinalization(env, a, j, snapshot, s).jobs[j].phase.Finishing? <==> !Met(snapshot)
  {
    if StatusOf(snapshot) == Collecting { CollectingNotFinal(snapshot); }
  }

  /** A creation job ends without a commit and without giving up exactly when its
      copy is no longer pending. */
  lemma CreationSettlesIff(env: Env, a: Sys, j: nat, funding: Option<seq<FundingUtxo>>)
    requires Reached(env, a) && j < |a.jobs| && a.jobs[j].kind.CreationJob? && a.jobs[j].phase.Loaded?
    ensures j < |Effect(env, a, WorkJob(j, funding)).jobs|
    ensures Effect(env, a, WorkJob(j, funding)).jobs[j].phase == Finishing(Finished)
            <==> StatusOf(a.jobs[j].phase.snapshot) != Pending
  {
    ReachedCopy(env, a, j);
    WorkEffect(env, a, j, funding);
    CreationSettles(env, a, j, a.jobs[j].phase.snapshot, Replay(a.jobs[j].phase.snapshot).value, funding);
  }

  lemma CreationSettles(env: Env, a: Sys, j: nat, snapshot: Log, s: Session, funding: Option<seq<FundingUtxo>>)
    requires j < |a.jobs| && Replay(snapshot) == Some(s)
    ensures WorkCreation(env, a, j, snapshot, s, funding).jobs[j].phase == Finishing(Finished)
            <==> StatusOf(snapshot) != Pending
  {
    if StatusOf(snapshot) == Pending { C.PendingIsFresh(snapshot); }
  }
}
