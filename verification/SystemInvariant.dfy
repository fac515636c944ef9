/** Every step of the platform keeps the invariant. */
module SystemInvariant {
  import opened Foundation
  import opened Documents
  import opened Storage
  import opened SessionModel
  import opened SessionHistory
  import opened SessionLanguage
  import opened Sorting
  import opened Spending
  import opened Quorum
  import opened UseCases
  import opened System
  import opened SystemSafety
  import C = Creation
  import F = Finalization
  import P = Proposal
  import R = Registry
  import W = WalletModel

  // --- frames ---

  /** Only what changed needs to be looked at again. */
  ghost predicate NewLogsOk(env: Env, a: Sys, b: Sys) {
    forall sid :: sid in b.logs ==>
      || (sid in a.logs && b.logs[sid] == a.logs[sid])
      || LogOk(env, b.registry.wallets, b.blobs, sid, b.logs[sid])
  }

  ghost predicate NewJobsOk(env: Env, a: Sys, b: Sys) {
    forall j :: 0 <= j < |b.jobs| ==>
      (j < |a.jobs| && b.jobs[j] == a.jobs[j]) || JobOk(env, b, b.jobs[j])
  }

  ghost predicate NewRequestsOk(env: Env, a: Sys, b: Sys) {
    forall k :: 0 <= k < |b.requests| ==>
      (k < |a.requests| && b.requests[k] == a.requests[k]) || RequestOk(env, b, b.requests[k])
  }

  lemma KeepsLogsOk(env: Env, a: Sys, b: Sys)
    requires LogsOk(env, a) && Grows(a, b) && NewLogsOk(env, a, b)
    ensures LogsOk(env, b)
  {
    forall sid | sid in b.logs ensures LogOk(env, b.registry.wallets, b.blobs, sid, b.logs[sid]) {
      if sid in a.logs && b.logs[sid] == a.logs[sid] {
        LogGrows(env, a.registry.wallets, b.registry.wallets, a.blobs, b.blobs, sid, a.logs[sid]);
      }
    }
  }

  lemma KeepsJobsOk(env: Env, a: Sys, b: Sys)
    requires JobsOk(env, a) && Grows(a, b) && SamePolicies(a, b) && NewJobsOk(env, a, b)
    ensures JobsOk(env, b)
  {
    forall j | 0 <= j < |b.jobs| ensures JobOk(env, b, b.jobs[j]) {
      if j < |a.jobs| && b.jobs[j] == a.jobs[j] { JobGrows(env, a, b, a.jobs[j]); }
    }
  }

  lemma KeepsRequestsOk(env: Env, a: Sys, b: Sys)
    requires RequestsOk(env, a) && Grows(a, b) && NewRequestsOk(env, a, b)
    ensures RequestsOk(env, b)
  {
    forall k | 0 <= k < |b.requests| ensures RequestOk(env, b, b.requests[k]) {
      if k < |a.requests| && b.requests[k] == a.requests[k] { RequestGrows(env, a, b, a.requests[k]); }
    }
  }

  lemma KeepsInv(env: Env, a: Sys, b: Sys)
    requires Inv(env, a) && Grows(a, b) && SamePolicies(a, b) && RegistryOk(env, b)
    requires NewLogsOk(env, a, b) && NewJobsOk(env, a, b) && NewRequestsOk(env, a, b) && AllServed(b)
    ensures Inv(env, b)
  {
    hide LogsOk, JobsOk, RequestsOk, AllServed, R.Consistent;
    KeepsLogsOk(env, a, b);
    KeepsJobsOk(env, a, b);
    KeepsRequestsOk(env, a, b);
  }

  /** The job may change as long as it goes on serving whom it has to serve. */
  ghost predicate StillServes(before: Job, after: Job, es: Log) {
    && after.kind == before.kind && after.sid == before.sid
    && (Met(es) && Finalizes(before, before.sid) ==> Finalizes(after, before.sid))
    && (StatusOf(es) == Pending && Creates(before, before.sid) ==> Creates(after, before.sid))
  }

  lemma ReplacedServes(jobs: seq<Job>, j: nat, job: Job, sid: SessionId, es: Log)
    requires j < |jobs| && Served(jobs, sid, es)
    requires jobs[j].sid == sid ==> StillServes(jobs[j], job, es)
    requires job.sid == jobs[j].sid
    ensures Served(jobs[j := job], sid, es)
  {
    var after := jobs[j := job];
    if Met(es) {
      var i :| 0 <= i < |jobs| && Finalizes(jobs[i], sid);
      assert Finalizes(after[i], sid);
    }
    if StatusOf(es) == Pending {
      var i :| 0 <= i < |jobs| && Creates(jobs[i], sid);
      assert Creates(after[i], sid);
    }
  }

  lemma AppendedServes(jobs: seq<Job>, job: Job, sid: SessionId, es: Log)
    requires Served(jobs, sid, es)
    ensures Served(jobs + [job], sid, es)
  {
    var after := jobs + [job];
    if Met(es) {
      var i :| 0 <= i < |jobs| && Finalizes(jobs[i], sid);
      assert Finalizes(after[i], sid);
    }
    if StatusOf(es) == Pending {
      var i :| 0 <= i < |jobs| && Creates(jobs[i], sid);
      assert Creates(after[i], sid);
    }
  }

  lemma SameLogsGrow(a: Sys, b: Sys)
    requires a.logs == b.logs && BlobsGrow(a.blobs, b.blobs) && a.registry == b.registry
    ensures Grows(a, b) && SamePolicies(a, b)
  {
  }

  lemma OneJobServes(a: Sys, b: Sys, j: nat)
    requires AllServed(a) && a.logs == b.logs && j < |a.jobs|
    requires |b.jobs| == |a.jobs| && b.jobs == a.jobs[j := b.jobs[j]] && a.jobs[j].sid in a.logs
    requires StillServes(a.jobs[j], b.jobs[j], a.logs[a.jobs[j].sid])
    ensures AllServed(b)
  {
    forall sid | sid in b.logs ensures Served(b.jobs, sid, b.logs[sid]) {
      ReplacedServes(a.jobs, j, b.jobs[j], sid, a.logs[sid]);
    }
  }

  lemma OneJobOk(env: Env, a: Sys, b: Sys, j: nat)
    requires j < |a.jobs| == |b.jobs| && b.jobs == a.jobs[j := b.jobs[j]] && JobOk(env, b, b.jobs[j])
    ensures NewJobsOk(env, a, b)
  {
    forall i | 0 <= i < |b.jobs| && i != j ensures b.jobs[i] == a.jobs[i] {}
  }

  /** A step on one job that leaves the logs alone. */
  lemma JobChanged(env: Env, a: Sys, b: Sys, j: nat)
    requires Inv(env, a) && j < |a.jobs|
    requires a.logs == b.logs && BlobsGrow(a.blobs, b.blobs) && a.registry == b.registry && a.requests == b.requests
    requires |b.jobs| == |a.jobs| && b.jobs == a.jobs[j := b.jobs[j]] && JobOk(env, b, b.jobs[j])
    requires a.jobs[j].sid in a.logs && StillServes(a.jobs[j], b.jobs[j], a.logs[a.jobs[j].sid])
    ensures Inv(env, b)
  {
    hide LogsOk, JobsOk, RequestsOk, AllServed, R.Consistent;
    SameLogsGrow(a, b);
    OneJobServes(a, b, j);
    OneJobOk(env, a, b, j);
    KeepsInv(env, a, b);
  }

  lemma OneRequestOk(env: Env, a: Sys, b: Sys, k: nat)
    requires k < |b.requests| && RequestOk(env, b, b.requests[k])
    requires b.requests == a.requests + [b.requests[k]]
             || (k < |a.requests| && b.requests == a.requests[k := b.requests[k]])
    ensures NewRequestsOk(env, a, b)
  {
    forall i | 0 <= i < |b.requests|
      ensures (i < |a.requests| && b.requests[i] == a.requests[i]) || RequestOk(env, b, b.requests[i])
    {
    }
  }

  /** A step on one request that leaves the logs alone. */
  lemma RequestChanged(env: Env, a: Sys, b: Sys, k: nat)
    requires Inv(env, a) && k < |b.requests| && RequestOk(env, b, b.requests[k])
    requires a.logs == b.logs && BlobsGrow(a.blobs, b.blobs) && a.registry == b.registry && a.jobs == b.jobs
    requires b.requests == a.requests + [b.requests[k]]
             || (k < |a.requests| && b.requests == a.requests[k := b.requests[k]])
    ensures Inv(env, b)
  {
    hide LogsOk, JobsOk, RequestsOk, Served, R.Consistent;
    SameLogsGrow(a, b);
    OneRequestOk(env, a, b, k);
    KeepsInv(env, a, b);
  }

  // --- wallets and proposals ---

  lemma WalletsStep(env: Env, a: Sys, step: R.Step)
    requires Inv(env, a)
    ensures Inv(env, Effect(env, a, Wallets(step)))
  {
    var b := Effect(env, a, Wallets(step));
    R.StepKeepsConsistent(a.registry, step);
    forall id | id in a.registry.wallets && W.StatusOf(a.registry.wallets[id].events) == W.Active
      ensures id in b.registry.wallets && b.registry.wallets[id] == a.registry.wallets[id]
    {
      R.StepKeepsWallet(a.registry, step, id);
    }
    KeepsInv(env, a, b);
  }

  lemma ProposedLogOk(env: Env, wallets: R.Stored, blobs: Blobs, id: SessionId, walletId: WalletId,
                      user: UserId, spend: SpendSpec)
    requires walletId in wallets && R.WalletOk(env.network, walletId, wallets[walletId])
    requires P.Proposable(wallets[walletId], spend)
    ensures LogOk(env, wallets, blobs, id, [Initialized(P.SnapshotOf(id, wallets[walletId], user, spend))])
    ensures StatusOf([Initialized(P.SnapshotOf(id, wallets[walletId], user, spend))]) == Pending
  {
    var w := wallets[walletId];
    var p := P.SnapshotOf(id, w, user, spend);
    R.StoredIsSound(env.network, walletId, w);
    P.SnapshotIsValid(id, w, user, spend);
    assert Run(Proposed(p), []).events == [Initialized(p)];
    assert [Initialized(p)][..0] == [];
    assert StatusScan([]) == None;
  }

  /** A new session is served by the job enqueued with it. */
  lemma ProposedServes(a: Sys, b: Sys, id: SessionId)
    requires AllServed(a) && id !in a.logs && b.jobs == a.jobs + [Job(CreationJob, id, Queued)]
    requires id in b.logs && b.logs == a.logs[id := b.logs[id]] && StatusOf(b.logs[id]) == Pending
    ensures AllServed(b)
  {
    forall sid | sid in b.logs ensures Served(b.jobs, sid, b.logs[sid]) {
      if sid == id {
        assert Creates(b.jobs[|a.jobs|], id);
      } else {
        AppendedServes(a.jobs, Job(CreationJob, id, Queued), sid, a.logs[sid]);
      }
    }
  }

  lemma NewSessionGrows(env: Env, a: Sys, b: Sys, id: SessionId)
    requires id !in a.logs && id in b.logs && b == Enqueue(a.(logs := a.logs[id := b.logs[id]]), CreationJob, id)
    requires LogOk(env, b.registry.wallets, b.blobs, id, b.logs[id])
    ensures Grows(a, b) && SamePolicies(a, b) && NewLogsOk(env, a, b) && NewRequestsOk(env, a, b)
  {
  }

  lemma NewSessionKeepsInv(env: Env, a: Sys, b: Sys, id: SessionId)
    requires Inv(env, a) && id !in a.logs && id in b.logs
    requires b == Enqueue(a.(logs := a.logs[id := b.logs[id]]), CreationJob, id)
    requires LogOk(env, b.registry.wallets, b.blobs, id, b.logs[id]) && StatusOf(b.logs[id]) == Pending
    ensures Inv(env, b)
  {
    hide LogsOk, JobsOk, RequestsOk, AllServed, R.Consistent;
    ProposedServes(a, b, id);
    OneMoreJobOk(env, a, b, CreationJob, id);
    NewSessionGrows(env, a, b, id);
    KeepsInv(env, a, b);
  }

  lemma ProposeStep(env: Env, a: Sys, id: SessionId, walletId: WalletId, user: UserId, spend: SpendSpec)
    requires Inv(env, a)
    ensures Inv(env, Effect(env, a, Propose(id, walletId, user, spend)))
  {
    hide LogsOk, JobsOk, RequestsOk, AllServed;
    if id !in a.logs && walletId in a.registry.wallets && P.Proposable(a.registry.wallets[walletId], spend) {
      ProposedLogOk(env, a.registry.wallets, a.blobs, id, walletId, user, spend);
      NewSessionKeepsInv(env, a, Effect(env, a, Propose(id, walletId, user, spend)), id);
    }
  }

  // --- uploads and edits ---

  lemma StartUploadStep(env: Env, a: Sys, sid: SessionId, user: UserId)
    requires Inv(env, a)
    ensures Inv(env, Effect(env, a, StartUpload(sid, user)))
  {
    hide JobsOk, RequestsOk, AllServed, R.Consistent;
    var b := Effect(env, a, StartUpload(sid, user));
    if b != a {
      var p := LatestPolicy(a.logs[sid]).value;
      var w := a.registry.wallets[p.walletId];
      P.SnapshotIsValid(p.id, w, p.proposedBy, p.spend);
      assert W.KeystoreFingerprintOf(w, user).Some?;
      RequestChanged(env, a, b, |a.requests|);
    }
  }

  lemma StartedEditOk(env: Env, a: Sys, b: Sys, sid: SessionId)
    requires Inv(env, a) && sid in a.logs
    requires b.logs == a.logs && b.registry == a.registry && b.blobs == a.blobs
    ensures RequestOk(env, b, Editing(sid, a.logs[sid]))
  {
    hide JobsOk, RequestsOk, AllServed, R.Consistent;
    assert LogOk(env, a.registry.wallets, a.blobs, sid, a.logs[sid]);
  }

  lemma StartEditStep(env: Env, a: Sys, sid: SessionId)
    requires Inv(env, a)
    ensures Inv(env, Effect(env, a, StartEdit(sid)))
  {
    hide Inv, RequestOk;
    var b := Effect(env, a, StartEdit(sid));
    if b != a {
      StartedEditOk(env, a, b, sid);
      RequestChanged(env, a, b, |a.requests|);
    }
  }

  /** An accepted submission is the unsigned document completed by its signer. */
  lemma UploadIsOk(env: Env, a: Sys, b: Sys, q: Request, signed: Psbt)
    requires q.Signing? && RequestOk(env, a, q) && Replay(q.snapshot).Some?
    requires Storable(env.crypto, a.blobs, Replay(q.snapshot).value, signed, q.fingerprint)
    requires b.blobs == Put(a.blobs, PsbtBlob(signed)) && b.logs == a.logs && b.registry == a.registry
    ensures RequestOk(env, b, Signed(q.sid, q.snapshot, q.fingerprint, Sha256(PsbtBlob(signed))))
  {
    PutGrows(a.blobs, PsbtBlob(signed));
    SameLogsGrow(a, b);
    SnapshotGrows(env, a, b, q.sid, q.snapshot);
  }

  lemma RequestKnown(env: Env, a: Sys, k: nat)
    requires Inv(env, a) && k < |a.requests|
    ensures RequestOk(env, a, a.requests[k])
  {
  }

  lemma ClosedKeepsInv(env: Env, a: Sys, k: nat)
    requires Inv(env, a) && k < |a.requests|
    ensures Inv(env, a.(requests := a.requests[k := Closed]))
  {
    hide Inv;
    RequestChanged(env, a, a.(requests := a.requests[k := Closed]), k);
  }

  lemma UploadKeepsInv(env: Env, a: Sys, k: nat, signed: Psbt)
    requires Inv(env, a) && k < |a.requests| && a.requests[k].Signing? && RequestOk(env, a, a.requests[k])
    requires Replay(a.requests[k].snapshot).Some?
    requires Storable(env.crypto, a.blobs, Replay(a.requests[k].snapshot).value, signed, a.requests[k].fingerprint)
    ensures var q := a.requests[k];
            Inv(env, a.(requests := a.requests[k := Signed(q.sid, q.snapshot, q.fingerprint, Sha256(PsbtBlob(signed)))],
                        blobs := Put(a.blobs, PsbtBlob(signed))))
  {
    hide Inv;
    var q := a.requests[k];
    var b := a.(requests := a.requests[k := Signed(q.sid, q.snapshot, q.fingerprint, Sha256(PsbtBlob(signed)))],
                blobs := Put(a.blobs, PsbtBlob(signed)));
    UploadIsOk(env, a, b, q, signed);
    PutGrows(a.blobs, PsbtBlob(signed));
    RequestChanged(env, a, b, k);
  }

  lemma PutUploadStep(env: Env, a: Sys, k: nat, signed: Psbt)
    requires Inv(env, a)
    ensures Inv(env, Effect(env, a, PutUpload(k, signed)))
  {
    hide Inv;
    if k < |a.requests| && a.requests[k].Signing? {
      var q := a.requests[k];
      PutEffect(env, a, k, signed);
      RequestKnown(env, a, k);
      if Replay(q.snapshot).Some?
         && Storable(env.crypto, a.blobs, Replay(q.snapshot).value, signed, q.fingerprint) {
        UploadKeepsInv(env, a, k, signed);
      } else {
        ClosedKeepsInv(env, a, k);
      }
    }
  }

  lemma DropStep(env: Env, a: Sys, k: nat)
    requires Inv(env, a)
    ensures Inv(env, Effect(env, a, Drop(k)))
  {
    hide Inv;
    if k < |a.requests| { ClosedKeepsInv(env, a, k); }
  }

  lemma ExecutedStatus(s: Session, c: Command)
    requires Apply(s, c).1.Executed?
    ensures IsEdit(c) ==> StatusOf(Apply(s, c).0.events) !in {Pending, Collecting}
    ensures c.DoAddSignature? ==> StatusOf(Apply(s, c).0.events) == Collecting
    ensures c.DoFinalize? ==> StatusOf(Apply(s, c).0.events) == FinalizedStatus
    ensures c.DoRecordPsbtCreated? ==> StatusOf(Apply(s, c).0.events) == Collecting
  {
    AppendedEvent(s, c);
    ApplyAppends(s, c);
    var t := Apply(s, c).0.events;
    assert t[..|t| - 1] == s.events;
  }

  /** The log of `sid` became `es`, a command's result in order. */
  ghost predicate Committed(env: Env, a: Sys, b: Sys, sid: SessionId, es: Log) {
    && sid in a.logs && a.logs[sid] <= es && b.logs == a.logs[sid := es]
    && LogOk(env, a.registry.wallets, a.blobs, sid, es)
    && LatestPolicy(es) == LatestPolicy(a.logs[sid])
    && b.blobs == a.blobs && b.registry == a.registry
  }

  lemma StoredIsCommitted(env: Env, a: Sys, b: Sys, sid: SessionId, snapshot: Log, c: Command)
    requires SnapshotOk(env, a, sid, snapshot) && CommandOk(SnapshotFacts(env, a, snapshot), snapshot, c)
    requires Attempt(a.logs, sid, snapshot, c).1.Stored?
    requires b.logs == Attempt(a.logs, sid, snapshot, c).0 && b.blobs == a.blobs && b.registry == a.registry
    ensures Replay(snapshot).Some? && Apply(Replay(snapshot).value, c).1.Executed?
    ensures Committed(env, a, b, sid, Apply(Replay(snapshot).value, c).0.events)
  {
    AttemptMeaning(env, a, sid, snapshot, c);
    CommandKeepsLog(env, a.registry.wallets, a.blobs, sid, snapshot, c);
  }

  lemma CommittedGrows(env: Env, a: Sys, b: Sys, sid: SessionId, es: Log)
    requires Committed(env, a, b, sid, es)
    ensures Grows(a, b) && SamePolicies(a, b)
  {
  }

  /** A commit of a session's log together with the jobs it enqueues. */
  lemma CommittedKeepsInv(env: Env, a: Sys, b: Sys, sid: SessionId, es: Log)
    requires Inv(env, a) && Committed(env, a, b, sid, es)
    requires NewJobsOk(env, a, b) && NewRequestsOk(env, a, b) && AllServed(b)
    ensures Inv(env, b)
  {
    hide LogsOk, JobsOk, RequestsOk, AllServed, R.Consistent;
    CommittedGrows(env, a, b, sid, es);
    KeepsInv(env, a, b);
  }

  lemma OneMoreJobOk(env: Env, a: Sys, b: Sys, kind: JobKind, sid: SessionId)
    requires b.jobs == a.jobs + [Job(kind, sid, Queued)] && sid in b.logs
    ensures NewJobsOk(env, a, b)
  {
    assert JobOk(env, b, Job(kind, sid, Queued));
  }

  /** A finalization job was enqueued with the log it has to serve. */
  lemma EnqueuedServes(a: Sys, b: Sys, sid: SessionId)
    requires AllServed(a) && b.jobs == a.jobs + [Job(FinalizationJob, sid, Queued)]
    requires sid in a.logs && sid in b.logs && b.logs == a.logs[sid := b.logs[sid]]
    requires StatusOf(b.logs[sid]) != Pending || b.logs[sid] == a.logs[sid]
    ensures AllServed(b)
  {
    assert Finalizes(b.jobs[|a.jobs|], sid);
    forall other | other in b.logs ensures Served(b.jobs, other, b.logs[other]) {
      if b.logs[other] == a.logs[other] {
        AppendedServes(a.jobs, Job(FinalizationJob, sid, Queued), other, a.logs[other]);
      }
    }
  }

  lemma SignatureStored(env: Env, a: Sys, b: Sys, k: nat)
    requires Inv(env, a) && k < |a.requests| && a.requests[k].Signed? && RequestOk(env, a, a.requests[k])
    requires var q := a.requests[k];
             var c := DoAddSignature(q.fingerprint, q.hash);
             && Attempt(a.logs, q.sid, q.snapshot, c).1.Stored?
             && b.logs == Attempt(a.logs, q.sid, q.snapshot, c).0
             && b.jobs == a.jobs + [Job(FinalizationJob, q.sid, Queued)]
    requires b.requests == a.requests[k := Closed] && b.blobs == a.blobs && b.registry == a.registry
    ensures Inv(env, b)
  {
    hide LogsOk, JobsOk, RequestsOk, AllServed, R.Consistent;
    var q := a.requests[k];
    var c := DoAddSignature(q.fingerprint, q.hash);
    StoredIsCommitted(env, a, b, q.sid, q.snapshot, c);
    var es := Apply(Replay(q.snapshot).value, c).0.events;
    ExecutedStatus(Replay(q.snapshot).value, c);
    EnqueuedServes(a, b, q.sid);
    OneMoreJobOk(env, a, b, FinalizationJob, q.sid);
    assert b.requests[k] == Closed;
    OneRequestOk(env, a, b, k);
    CommittedKeepsInv(env, a, b, q.sid, es);
  }

  /** A finalization job enqueued for a log that stays as it is. */
  lemma EnqueueKeepsInv(env: Env, a: Sys, sid: SessionId)
    requires Inv(env, a) && sid in a.logs
    ensures Inv(env, Enqueue(a, FinalizationJob, sid))
  {
    hide LogsOk, JobsOk, RequestsOk, AllServed, R.Consistent;
    var b := Enqueue(a, FinalizationJob, sid);
    SameLogsGrow(a, b);
    EnqueuedServes(a, b, sid);
    OneMoreJobOk(env, a, b, FinalizationJob, sid);
    KeepsInv(env, a, b);
  }

  lemma SignatureAgain(env: Env, a: Sys, k: nat)
    requires Inv(env, a) && k < |a.requests| && a.requests[k].Signed? && a.requests[k].sid in a.logs
    ensures Inv(env, Enqueue(a.(requests := a.requests[k := Closed]), FinalizationJob, a.requests[k].sid))
  {
    hide Inv;
    ClosedKeepsInv(env, a, k);
    EnqueueKeepsInv(env, a.(requests := a.requests[k := Closed]), a.requests[k].sid);
  }

  lemma RequestSession(env: Env, a: Sys, k: nat)
    requires Inv(env, a) && k < |a.requests| && !a.requests[k].Closed?
    ensures a.requests[k].sid in a.logs && SnapshotOk(env, a, a.requests[k].sid, a.requests[k].snapshot)
  {
    assert RequestOk(env, a, a.requests[k]);
  }

  lemma CommitUploadStep(env: Env, a: Sys, k: nat)
    requires Inv(env, a)
    ensures Inv(env, Effect(env, a, CommitUpload(k)))
  {
    hide Inv;
    if k < |a.requests| && a.requests[k].Signed? {
      var q := a.requests[k];
      UploadEffect(env, a, k);
      RequestKnown(env, a, k);
      RequestSession(env, a, k);
      match Attempt(a.logs, q.sid, q.snapshot, DoAddSignature(q.fingerprint, q.hash)).1
      case Rejected => ClosedKeepsInv(env, a, k);
      case Stored => SignatureStored(env, a, Effect(env, a, CommitUpload(k)), k);
      case Unchanged => SignatureAgain(env, a, k);
    }
  }

  /** A commit that settles or abandons the session leaves nobody waiting. */
  lemma SettledServes(a: Sys, b: Sys, sid: SessionId)
    requires AllServed(a) && sid in a.logs && sid in b.logs && b.logs == a.logs[sid := b.logs[sid]]
    requires a.jobs == b.jobs && StatusOf(b.logs[sid]) !in {Pending, Collecting}
    ensures AllServed(b)
  {
    forall other | other in b.logs ensures Served(b.jobs, other, b.logs[other]) {
      if other != sid { assert Served(a.jobs, other, a.logs[other]); }
    }
  }

  lemma EditStored(env: Env, a: Sys, b: Sys, k: nat, c: Command)
    requires Inv(env, a) && k < |a.requests| && a.requests[k].Editing? && RequestOk(env, a, a.requests[k]) && IsEdit(c)
    requires Attempt(a.logs, a.requests[k].sid, a.requests[k].snapshot, c).1.Stored?
    requires b.logs == Attempt(a.logs, a.requests[k].sid, a.requests[k].snapshot, c).0
    requires b.requests == a.requests[k := Closed] && b.blobs == a.blobs && b.registry == a.registry && b.jobs == a.jobs
    ensures Inv(env, b)
  {
    hide LogsOk, JobsOk, RequestsOk, AllServed, R.Consistent;
    var q := a.requests[k];
    StoredIsCommitted(env, a, b, q.sid, q.snapshot, c);
    ExecutedStatus(Replay(q.snapshot).value, c);
    SettledServes(a, b, q.sid);
    assert b.requests[k] == Closed;
    OneRequestOk(env, a, b, k);
    CommittedKeepsInv(env, a, b, q.sid, Apply(Replay(q.snapshot).value, c).0.events);
  }

  lemma CommitEditStep(env: Env, a: Sys, k: nat, e: Edit)
    requires Inv(env, a)
    ensures Inv(env, Effect(env, a, CommitEdit(k, e)))
  {
    hide Inv;
    if k < |a.requests| && a.requests[k].Editing? {
      var q, c := a.requests[k], EditCommand(e);
      EditsEdit(e);
      EditEffect(env, a, k, e);
      RequestKnown(env, a, k);
      if Attempt(a.logs, q.sid, q.snapshot, c).1.Stored? {
        EditStored(env, a, Effect(env, a, CommitEdit(k, e)), k, c);
      } else {
        RejectedKeepsLogs(a.logs, q.sid, q.snapshot, c);
        ClosedKeepsInv(env, a, k);
      }
    }
  }

  // --- jobs ---

  lemma PolicyIsFixed(snapshot: Log, es: Log)
    requires Reachable(snapshot) && Reachable(es) && snapshot <= es
    ensures LatestPolicy(snapshot) == LatestPolicy(es)
  {
    ReachableLoads(snapshot);
    StartsWithPolicy(snapshot);
    StartsWithPolicy(es);
  }

  lemma StartsWithPolicy(es: Log)
    requires Reachable(es)
    ensures es != [] && LatestPolicy(es).Some? && es[0] == Initialized(LatestPolicy(es).value)
  {
    var p: Policy, cs: seq<Command> :| ValidPolicy(p) && Run(Proposed(p), cs).events == es;
    RunExtends(Proposed(p), cs);
    ProposedIsHydrated(p);
    HydrationClosure(Proposed(p), cs);
    assert es[0] == Proposed(p).events[0];
  }

  lemma JobKnown(env: Env, a: Sys, j: nat)
    requires Inv(env, a) && j < |a.jobs|
    ensures JobOk(env, a, a.jobs[j]) && a.jobs[j].sid in a.logs
  {
  }

  lemma JobSession(env: Env, a: Sys, j: nat)
    requires Inv(env, a) && j < |a.jobs|
    ensures a.jobs[j].sid in a.logs
  {
    JobKnown(env, a, j);
  }

  lemma LoadedJobOk(env: Env, a: Sys, j: nat)
    requires Inv(env, a) && j < |a.jobs| && a.jobs[j].phase.Queued? && a.jobs[j].sid in a.logs
    ensures var b := SetPhase(a, j, Loaded(a.logs[a.jobs[j].sid]));
            && JobOk(env, b, b.jobs[j]) && StillServes(a.jobs[j], b.jobs[j], a.logs[a.jobs[j].sid])
  {
    hide JobsOk, RequestsOk, AllServed, RegistryOk;
    assert LogOk(env, a.registry.wallets, a.blobs, a.jobs[j].sid, a.logs[a.jobs[j].sid]);
  }

  lemma LoadJobStep(env: Env, a: Sys, j: nat)
    requires Inv(env, a)
    ensures Inv(env, Effect(env, a, LoadJob(j)))
  {
    hide Inv, Effect, JobOk, LogOk;
    LoadEffect(env, a, j);
    if j < |a.jobs| && a.jobs[j].phase.Queued? && a.jobs[j].sid in a.logs {
      LoadedJobOk(env, a, j);
      JobChanged(env, a, SetPhase(a, j, Loaded(a.logs[a.jobs[j].sid])), j);
    }
  }

  /** A job starts over: it failed, lost a race, or crashed. */
  lemma RequeuedKeepsInv(env: Env, a: Sys, j: nat)
    requires Inv(env, a) && j < |a.jobs| && a.jobs[j].sid in a.logs
    ensures Inv(env, SetPhase(a, j, Queued))
  {
    hide Inv;
    JobChanged(env, a, SetPhase(a, j, Queued), j);
  }

  /** A job is done, with a verdict in order and nobody left waiting for it. */
  lemma EndedKeepsInv(env: Env, a: Sys, j: nat, v: Verdict)
    requires Inv(env, a) && j < |a.jobs| && a.jobs[j].sid in a.logs && VerdictOk(a, a.jobs[j], v)
    requires StillServes(a.jobs[j], a.jobs[j].(phase := Finishing(v)), a.logs[a.jobs[j].sid])
    ensures Inv(env, SetPhase(a, j, Finishing(v)))
  {
    hide Inv;
    JobChanged(env, a, SetPhase(a, j, Finishing(v)), j);
  }

  lemma CompletedKeepsInv(env: Env, a: Sys, j: nat)
    requires Inv(env, a) && j < |a.jobs| && a.jobs[j].phase.Finishing? && JobOk(env, a, a.jobs[j])
    ensures Inv(env, SetPhase(a, j, Complete(a.jobs[j].phase.verdict)))
  {
    hide Inv;
    JobChanged(env, a, SetPhase(a, j, Complete(a.jobs[j].phase.verdict)), j);
  }

  lemma FinishJobStep(env: Env, a: Sys, j: nat)
    requires Inv(env, a)
    ensures Inv(env, Effect(env, a, FinishJob(j)))
  {
    hide Inv, Effect;
    FinishEffect(env, a, j);
    if j < |a.jobs| && a.jobs[j].phase.Finishing? {
      JobKnown(env, a, j);
      CompletedKeepsInv(env, a, j);
    }
  }

  lemma CrashJobStep(env: Env, a: Sys, j: nat)
    requires Inv(env, a)
    ensures Inv(env, Effect(env, a, CrashJob(j)))
  {
    hide Inv;
    if j < |a.jobs| {
      CrashEffect(env, a, j);
      JobSession(env, a, j);
      if !a.jobs[j].phase.Complete? { RequeuedKeepsInv(env, a, j); }
    }
  }

  lemma LoadedIsOk(env: Env, a: Sys, j: nat)
    requires Inv(env, a) && j < |a.jobs| && a.jobs[j].phase.Loaded?
    ensures SnapshotOk(env, a, a.jobs[j].sid, a.jobs[j].phase.snapshot)
    ensures Replay(a.jobs[j].phase.snapshot).Some?
  {
    assert JobOk(env, a, a.jobs[j]);
    ReachableLoads(a.jobs[j].phase.snapshot);
  }

  /** What the creation job's plan is worth for a loaded copy: what it records is a
      document for the spend, it gives up only on unbalanced coins, and it has
      nothing to do only when the copy is no longer pending. */
  ghost predicate CreationPlanOk(x: Facts, snapshot: Log, plan: C.Plan) {
    && (plan.Record? ==> C.Built(x.crypto.child, x.policy, x.descriptor, plan.psbt) && StatusOf(snapshot) == Pending)
    && (plan.GiveUp? ==> C.Unbalanced(x.policy.spend, plan.error))
    && (plan.AlreadyBuilt? || plan.UnexpectedStatus? ==> StatusOf(snapshot) != Pending)
  }

  lemma CreationPlans(env: Env, a: Sys, sid: SessionId, snapshot: Log, s: Session, funding: Option<seq<FundingUtxo>>)
    requires SnapshotOk(env, a, sid, snapshot) && Replay(snapshot) == Some(s)
    ensures CreationPlanOk(SnapshotFacts(env, a, snapshot), snapshot,
                           C.PlanFor(env.crypto.child, s, WalletOf(a, s.policy.walletId), funding, env.network))
  {
    hide C.Built, EventsOk;
    var w := a.registry.wallets[s.policy.walletId];
    assert WalletOf(a, s.policy.walletId) == Some(w);
    if StatusOf(snapshot) == Pending { C.PendingIsFresh(snapshot); }
    match C.PlanFor(env.crypto.child, s, Some(w), funding, env.network)
    case Record(_) => C.CreationBuildsMultisig(env.crypto.child, s, w, funding, env.network);
    case GiveUp(_) => C.GivesUpOnlyUnbalanced(env.crypto.child, s, w, funding, env.network);
    case _ =>
  }

  lemma BuiltIsReady(env: Env, a: Sys, b: Sys, sid: SessionId, snapshot: Log, psbt: Psbt)
    requires SnapshotOk(env, a, sid, snapshot) && StatusOf(snapshot) == Pending
    requires var x := SnapshotFacts(env, a, snapshot); C.Built(x.crypto.child, x.policy, x.descriptor, psbt)
    requires b.blobs == Put(a.blobs, PsbtBlob(psbt)) && b.logs == a.logs && b.registry == a.registry
    ensures SnapshotOk(env, b, sid, snapshot)
    ensures ReadyOk(env, b, CreationJob, snapshot, DoRecordPsbtCreated(Sha256(PsbtBlob(psbt))))
  {
    PutGrows(a.blobs, PsbtBlob(psbt));
    SameLogsGrow(a, b);
    SnapshotGrows(env, a, b, sid, snapshot);
  }

  /** A job nobody waits for is done. */
  lemma IdleKeepsInv(env: Env, a: Sys, j: nat)
    requires Inv(env, a) && j < |a.jobs| && a.jobs[j].sid in a.logs
    requires !Finalizes(a.jobs[j], a.jobs[j].sid) && !Creates(a.jobs[j], a.jobs[j].sid)
    ensures Inv(env, SetPhase(a, j, Finishing(Finished)))
  {
    hide Inv;
    EndedKeepsInv(env, a, j, Finished);
  }

  /** The uploaded document waits to be recorded. */
  lemma UploadedKeepsInv(env: Env, a: Sys, b: Sys, j: nat, snapshot: Log, c: Command)
    requires Inv(env, a) && j < |a.jobs| && a.jobs[j].sid in a.logs
    requires b == SetPhase(a, j, Ready(snapshot, c)).(blobs := b.blobs) && BlobsGrow(a.blobs, b.blobs)
    requires SnapshotOk(env, b, a.jobs[j].sid, snapshot) && ReadyOk(env, b, a.jobs[j].kind, snapshot, c)
    requires StillServes(a.jobs[j], b.jobs[j], a.logs[a.jobs[j].sid])
    ensures Inv(env, b)
  {
    hide Inv;
    JobChanged(env, a, b, j);
  }

  lemma CreationRecords(env: Env, a: Sys, j: nat, snapshot: Log, psbt: Psbt)
    requires Inv(env, a) && j < |a.jobs| && a.jobs[j].kind.CreationJob? && a.jobs[j].phase == Loaded(snapshot)
    requires SnapshotOk(env, a, a.jobs[j].sid, snapshot)
    requires CreationPlanOk(SnapshotFacts(env, a, snapshot), snapshot, C.Record(psbt))
    ensures Inv(env, AfterCreation(a, j, snapshot, C.Record(psbt)))
  {
    hide Inv, C.Built, SnapshotOk;
    var b := AfterCreation(a, j, snapshot, C.Record(psbt));
    BuiltIsReady(env, a, b, a.jobs[j].sid, snapshot, psbt);
    PutGrows(a.blobs, PsbtBlob(psbt));
    UploadedKeepsInv(env, a, b, j, snapshot, DoRecordPsbtCreated(Sha256(PsbtBlob(psbt))));
  }

  lemma CreationAbandons(env: Env, a: Sys, j: nat, snapshot: Log, e: BuildError)
    requires Inv(env, a) && j < |a.jobs| && a.jobs[j].kind.CreationJob? && a.jobs[j].phase == Loaded(snapshot)
    requires SnapshotOk(env, a, a.jobs[j].sid, snapshot)
    requires CreationPlanOk(SnapshotFacts(env, a, snapshot), snapshot, C.GiveUp(e))
    ensures Inv(env, AfterCreation(a, j, snapshot, C.GiveUp(e)))
  {
    hide Inv;
    SnapshotPolicy(env, a, a.jobs[j].sid, snapshot);
    EndedKeepsInv(env, a, j, GaveUp(e));
  }

  lemma SnapshotPolicy(env: Env, a: Sys, sid: SessionId, snapshot: Log)
    requires Inv(env, a) && SnapshotOk(env, a, sid, snapshot)
    ensures LatestPolicy(snapshot).Some? && LatestPolicy(a.logs[sid]) == LatestPolicy(snapshot)
  {
    assert LogOk(env, a.registry.wallets, a.blobs, sid, a.logs[sid]);
    PolicyIsFixed(snapshot, a.logs[sid]);
  }

  lemma CreationGoes(env: Env, a: Sys, j: nat, snapshot: Log, plan: C.Plan)
    requires Inv(env, a) && j < |a.jobs| && a.jobs[j].kind.CreationJob? && a.jobs[j].phase == Loaded(snapshot)
    requires SnapshotOk(env, a, a.jobs[j].sid, snapshot)
    requires CreationPlanOk(SnapshotFacts(env, a, snapshot), snapshot, plan)
    ensures Inv(env, AfterCreation(a, j, snapshot, plan))
  {
    hide Inv;
    match plan
    case Record(psbt) => CreationRecords(env, a, j, snapshot, psbt);
    case GiveUp(e) => CreationAbandons(env, a, j, snapshot, e);
    case Retry => RequeuedKeepsInv(env, a, j);
    case _ => IdleKeepsInv(env, a, j);
  }

  lemma WorkCreationStep(env: Env, a: Sys, j: nat, funding: Option<seq<FundingUtxo>>)
    requires Inv(env, a) && j < |a.jobs| && a.jobs[j].kind.CreationJob? && a.jobs[j].phase.Loaded?
    ensures Inv(env, Effect(env, a, WorkJob(j, funding)))
  {
    hide Inv, Effect;
    LoadedIsOk(env, a, j);
    WorkEffect(env, a, j, funding);
    var snapshot := a.jobs[j].phase.snapshot;
    var s := Replay(snapshot).value;
    CreationPlans(env, a, a.jobs[j].sid, snapshot, s, funding);
    CreationGoes(env, a, j, snapshot,
                 C.PlanFor(env.crypto.child, s, WalletOf(a, s.policy.walletId), funding, env.network));
  }

  /** The transaction a completed search leads to, once stored, is that of the
      first recorded signers whose documents were combined. */
  lemma FinalTxStored(x: Facts, before: Blobs, unsigned: Psbt, sigs: seq<SignatureRecord>, tx: FinalTx,
                      used: seq<Fingerprint>)
    requires BlobsGrow(before, x.blobs) && Fetch(x.blobs, Sha256(TxBlob(tx))) == Success(TxBlob(tx))
    requires var r := F.SearchPrefix(x.crypto, before, unsigned, unsigned, sigs, []);
             r.Complete? && r.used == used && x.crypto.extract(r.combined) == Some(tx)
    ensures FinalTxOk(x, unsigned, sigs,
                      FinalizationRecord(x.crypto.txid(tx), Sha256(TxBlob(tx)), Sort(used, FingerprintLe)))
  {
    assert sigs[0..] == sigs && sigs[..0] == [];
    assert CombinesExactly(before, unsigned, [], unsigned, []) && NoneFinalizes(unsigned, DocsOf(before, []));
    var n := SearchUsesPrefix(x.crypto, before, unsigned, unsigned, sigs, 0, []);
    UnsignedIsSafe(x.crypto, unsigned);
    F.SearchIsSafe(x.crypto, before, unsigned, unsigned, sigs, []);
    assert DocsOf(x.blobs, sigs[..n]) == DocsOf(before, sigs[..n]);
    assert FinalizedBy(x, unsigned, sigs[..n], tx,
                       FinalizationRecord(x.crypto.txid(tx), Sha256(TxBlob(tx)), Sort(used, FingerprintLe)));
  }

  /** What the finalization job's plan is worth for a loaded copy: the signers and
      the transaction it records belong together, once the transaction is stored,
      and it has nothing to do only when the copy has no quorum. */
  ghost predicate FinalizationPlanOk(x: Facts, snapshot: Log, plan: F.Plan) {
    && (plan.Record? ==>
          && Met(snapshot)
          && CommandOk(x.(blobs := Put(x.blobs, TxBlob(plan.tx))), snapshot,
                       DoFinalize(plan.txid, Sha256(TxBlob(plan.tx)), plan.used)))
    && (!plan.Record? && !plan.Stuck? ==> !Met(snapshot))
  }

  lemma FinalizationPlans(x: Facts, snapshot: Log, s: Session)
    requires Reachable(snapshot) && Replay(snapshot) == Some(s)
    ensures FinalizationPlanOk(x, snapshot, F.PlanFor(x.crypto, x.blobs, s))
  {
    if StatusOf(snapshot) == Collecting { CollectingNotFinal(snapshot); }
    var plan := F.PlanFor(x.crypto, x.blobs, s);
    if plan.Record? {
      var unsigned := F.LoadPsbt(x.blobs, s.unsignedHash.value).value;
      var y := x.(blobs := Put(x.blobs, TxBlob(plan.tx)));
      PutGrows(x.blobs, TxBlob(plan.tx));
      assert F.LoadPsbt(y.blobs, s.unsignedHash.value) == Success(unsigned);
      FinalTxStored(y, x.blobs, unsigned, s.signatures, plan.tx, plan.used);
    }
  }

  lemma ExtractedIsReady(env: Env, a: Sys, b: Sys, sid: SessionId, snapshot: Log, txid: Txid, tx: FinalTx,
                         used: seq<Fingerprint>)
    requires SnapshotOk(env, a, sid, snapshot)
    requires FinalizationPlanOk(SnapshotFacts(env, a, snapshot), snapshot, F.Record(txid, tx, used))
    requires b.blobs == Put(a.blobs, TxBlob(tx)) && b.logs == a.logs && b.registry == a.registry
    ensures SnapshotOk(env, b, sid, snapshot)
    ensures ReadyOk(env, b, FinalizationJob, snapshot, DoFinalize(txid, Sha256(TxBlob(tx)), used))
  {
    PutGrows(a.blobs, TxBlob(tx));
    SameLogsGrow(a, b);
    SnapshotGrows(env, a, b, sid, snapshot);
  }

  lemma FinalizationRecords(env: Env, a: Sys, j: nat, snapshot: Log, txid: Txid, tx: FinalTx, used: seq<Fingerprint>)
    requires Inv(env, a) && j < |a.jobs| && a.jobs[j].kind.FinalizationJob? && a.jobs[j].phase == Loaded(snapshot)
    requires SnapshotOk(env, a, a.jobs[j].sid, snapshot)
    requires FinalizationPlanOk(SnapshotFacts(env, a, snapshot), snapshot, F.Record(txid, tx, used))
    ensures Inv(env, AfterFinalization(a, j, snapshot, F.Record(txid, tx, used)))
  {
    hide Inv;
    var b := AfterFinalization(a, j, snapshot, F.Record(txid, tx, used));
    ExtractedIsReady(env, a, b, a.jobs[j].sid, snapshot, txid, tx, used);
    PutGrows(a.blobs, TxBlob(tx));
    UploadedKeepsInv(env, a, b, j, snapshot, DoFinalize(txid, Sha256(TxBlob(tx)), used));
  }

  lemma FinalizationGoes(env: Env, a: Sys, j: nat, snapshot: Log, plan: F.Plan)
    requires Inv(env, a) && j < |a.jobs| && a.jobs[j].kind.FinalizationJob? && a.jobs[j].phase == Loaded(snapshot)
    requires SnapshotOk(env, a, a.jobs[j].sid, snapshot)
    requires FinalizationPlanOk(SnapshotFacts(env, a, snapshot), snapshot, plan)
    ensures Inv(env, AfterFinalization(a, j, snapshot, plan))
  {
    hide Inv;
    match plan
    case Record(txid, tx, used) => FinalizationRecords(env, a, j, snapshot, txid, tx, used);
    case Stuck => RequeuedKeepsInv(env, a, j);
    case _ => IdleKeepsInv(env, a, j);
  }

  lemma WorkFinalizationStep(env: Env, a: Sys, j: nat, funding: Option<seq<FundingUtxo>>)
    requires Inv(env, a) && j < |a.jobs| && a.jobs[j].kind.FinalizationJob? && a.jobs[j].phase.Loaded?
    ensures Inv(env, Effect(env, a, WorkJob(j, funding)))
  {
    hide Inv, Effect;
    LoadedIsOk(env, a, j);
    WorkEffect(env, a, j, funding);
    var snapshot := a.jobs[j].phase.snapshot;
    var s := Replay(snapshot).value;
    FinalizationPlans(SnapshotFacts(env, a, snapshot), snapshot, s);
    FinalizationGoes(env, a, j, snapshot, F.PlanFor(env.crypto, a.blobs, s));
  }

  /** No signature is recorded before there is something to sign. */
  lemma {:induction false} UnsignedHasNoSignatures(x: Facts, sigs: seq<SignatureRecord>, es: Log)
    requires forall i :: 0 <= i < |es| ==> EventOk(x, None, sigs, es[i])
    ensures SignaturesIn(es) == []
  {
    if es != [] { UnsignedHasNoSignatures(x, sigs, es[..|es| - 1]); }
  }

  /** What the commit of a job's command makes of the session's needs. */
  lemma JobCommits(env: Env, a: Sys, job: Job)
    requires JobOk(env, a, job) && job.phase.Ready? && Replay(job.phase.snapshot).Some?
    ensures var (t, outcome) := Apply(Replay(job.phase.snapshot).value, job.phase.command);
            !outcome.AlreadyApplied?
            && (outcome.Executed? ==> StatusOf(t.events) != Pending && !Met(t.events))
  {
    var snapshot, c := job.phase.snapshot, job.phase.command;
    var s := Replay(snapshot).value;
    var (t, outcome) := Apply(s, c);
    ReachableLoads(snapshot);
    if job.kind.CreationJob? {
      C.PendingIsFresh(snapshot);
      if outcome.Executed? {
        ReachableStep(snapshot, c);
        UnsignedHasNoSignatures(SnapshotFacts(env, a, snapshot), SignaturesIn(snapshot), snapshot);
        ExecutedStatus(s, c);
        assert t.signatures == [];
      }
    } else {
      CollectingNotFinal(snapshot);
      FinalizedIffRecorded(snapshot);
      if outcome.Executed? { ExecutedStatus(s, c); }
    }
  }

  /** A job that stored what its session was waiting for has done its duty. */
  lemma DoneServes(a: Sys, b: Sys, j: nat)
    requires AllServed(a) && j < |a.jobs| == |b.jobs| && b.jobs == a.jobs[j := b.jobs[j]]
    requires b.jobs[j].sid == a.jobs[j].sid
    requires var sid := a.jobs[j].sid;
             && sid in a.logs && sid in b.logs && b.logs == a.logs[sid := b.logs[sid]]
             && StatusOf(b.logs[sid]) != Pending && !Met(b.logs[sid])
    ensures AllServed(b)
  {
    forall other | other in b.logs ensures Served(b.jobs, other, b.logs[other]) {
      if other != a.jobs[j].sid { ReplacedServes(a.jobs, j, b.jobs[j], other, a.logs[other]); }
    }
  }

  lemma ReadyIsCommitted(env: Env, a: Sys, b: Sys, job: Job)
    requires JobOk(env, a, job) && job.phase.Ready?
    requires Attempt(a.logs, job.sid, job.phase.snapshot, job.phase.command).1.Stored?
    requires b.logs == Attempt(a.logs, job.sid, job.phase.snapshot, job.phase.command).0
    requires b.blobs == a.blobs && b.registry == a.registry
    ensures Replay(job.phase.snapshot).Some?
    ensures var es := Apply(Replay(job.phase.snapshot).value, job.phase.command).0.events;
            Committed(env, a, b, job.sid, es) && StatusOf(es) != Pending && !Met(es)
  {
    StoredIsCommitted(env, a, b, job.sid, job.phase.snapshot, job.phase.command);
    JobCommits(env, a, job);
  }

  lemma DoneJobOk(env: Env, b: Sys, job: Job)
    requires job.sid in b.logs
    ensures JobOk(env, b, job.(phase := Finishing(Finished)))
  {
  }

  lemma JobStored(env: Env, a: Sys, b: Sys, j: nat)
    requires Inv(env, a) && j < |a.jobs| && JobOk(env, a, a.jobs[j]) && a.jobs[j].phase.Ready?
    requires var job := a.jobs[j];
             && Attempt(a.logs, job.sid, job.phase.snapshot, job.phase.command).1.Stored?
             && b.logs == Attempt(a.logs, job.sid, job.phase.snapshot, job.phase.command).0
             && b.jobs == a.jobs[j := job.(phase := Finishing(Finished))]
    requires b.requests == a.requests && b.blobs == a.blobs && b.registry == a.registry
    ensures Inv(env, b)
  {
    hide LogsOk, JobsOk, RequestsOk, AllServed, R.Consistent, JobOk, LogOk, Attempt, Met;
    var job := a.jobs[j];
    ReadyIsCommitted(env, a, b, job);
    DoneServes(a, b, j);
    DoneJobOk(env, b, job);
    OneJobOk(env, a, b, j);
    CommittedKeepsInv(env, a, b, job.sid, Apply(Replay(job.phase.snapshot).value, job.phase.command).0.events);
  }

  lemma ReadyIsDue(env: Env, a: Sys, j: nat)
    requires Inv(env, a) && j < |a.jobs| && a.jobs[j].phase.Ready?
    ensures var job := a.jobs[j];
            !Attempt(a.logs, job.sid, job.phase.snapshot, job.phase.command).1.Unchanged?
  {
    var job := a.jobs[j];
    JobKnown(env, a, j);
    AttemptMeaning(env, a, job.sid, job.phase.snapshot, job.phase.command);
    JobCommits(env, a, job);
  }

  lemma CommitJobStep(env: Env, a: Sys, j: nat)
    requires Inv(env, a)
    ensures Inv(env, Effect(env, a, CommitJob(j)))
  {
    hide Inv;
    if j < |a.jobs| && a.jobs[j].phase.Ready? {
      var job := a.jobs[j];
      JobCommitEffect(env, a, j);
      JobKnown(env, a, j);
      ReadyIsDue(env, a, j);
      if Attempt(a.logs, job.sid, job.phase.snapshot, job.phase.command).1.Stored? {
        JobStored(env, a, Effect(env, a, CommitJob(j)), j);
      } else {
        RejectedKeepsLogs(a.logs, job.sid, job.phase.snapshot, job.phase.command);
        RequeuedKeepsInv(env, a, j);
      }
    }
  }

  // --- all steps ---

  lemma WorkJobStep(env: Env, a: Sys, j: nat, funding: Option<seq<FundingUtxo>>)
    requires Inv(env, a)
    ensures Inv(env, Effect(env, a, WorkJob(j, funding)))
  {
    hide *;
    if j >= |a.jobs| || !a.jobs[j].phase.Loaded? {
      NothingToWork(env, a, j, funding);
    } else if a.jobs[j].kind.CreationJob? {
      WorkCreationStep(env, a, j, funding);
    } else {
      WorkFinalizationStep(env, a, j, funding);
    }
  }

  lemma StepKeepsInv(env: Env, a: Sys, step: Step)
    requires Inv(env, a)
    ensures Inv(env, Effect(env, a, step))
  {
    hide *;
    match step
    case Wallets(s) => WalletsStep(env, a, s);
    case Propose(id, walletId, user, spend) => ProposeStep(env, a, id, walletId, user, spend);
    case StartUpload(sid, user) => StartUploadStep(env, a, sid, user);
    case PutUpload(k, signed) => PutUploadStep(env, a, k, signed);
    case CommitUpload(k) => CommitUploadStep(env, a, k);
    case StartEdit(sid) => StartEditStep(env, a, sid);
    case CommitEdit(k, e) => CommitEditStep(env, a, k, e);
    case Drop(k) => DropStep(env, a, k);
    case LoadJob(j) => LoadJobStep(env, a, j);
    case WorkJob(j, funding) => WorkJobStep(env, a, j, funding);
    case CommitJob(j) => CommitJobStep(env, a, j);
    case FinishJob(j) => FinishJobStep(env, a, j);
    case CrashJob(j) => CrashJobStep(env, a, j);
  }

  /** The invariant holds in every state any interleaving can reach. */
  lemma {:induction false} PlayKeepsInv(env: Env, a: Sys, steps: seq<Step>)
    requires Inv(env, a)
    ensures Inv(env, Play(env, a, steps))
    decreases |steps|
  {
    hide Inv, Effect;
    if steps != [] {
      StepKeepsInv(env, a, steps[0]);
      PlayKeepsInv(env, Effect(env, a, steps[0]), steps[1..]);
    }
  }
}
