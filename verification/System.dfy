/** The platform as a state machine. Use cases and jobs run as separate load,
    compute, put and commit steps, in any interleaving; requests can be dropped
    and jobs can crash between any two steps.

    Assumptions about the infrastructure, and nothing else: an append succeeds if
    and only if its sequence numbers are free, an append and the jobs enqueued
    with it commit together, and a job that fails or crashes runs again. */
module System {
  import opened Foundation
  import opened Documents
  import opened Storage
  import opened SessionModel
  import opened SessionHistory
  import opened Spending
  import opened UseCases
  import C = Creation
  import F = Finalization
  import P = Proposal
  import R = Registry
  import W = WalletModel

  /** What never changes: the cryptography and the configured network. */
  datatype Env = Env(crypto: Crypto, network: Network)

  datatype JobKind = CreationJob | FinalizationJob

  datatype Verdict = Finished | GaveUp(error: BuildError)

  /** `Ready` is past the blob upload and before the commit; `Finishing` is past
      the commit and before the executor takes note. */
  datatype Phase =
    | Queued
    | Loaded(snapshot: Log)
    | Ready(snapshot: Log, command: Command)
    | Finishing(verdict: Verdict)
    | Complete(verdict: Verdict)

  datatype Job = Job(kind: JobKind, sid: SessionId, phase: Phase)

  /** `Signing` has loaded the session and resolved the signer, `Signed` has also
      stored the accepted document; `Editing` has loaded a session to cancel it or
      to fold in a chain observation. */
  datatype Request =
    | Signing(sid: SessionId, snapshot: Log, fingerprint: Fingerprint)
    | Signed(sid: SessionId, snapshot: Log, fingerprint: Fingerprint, hash: PsbtHash)
    | Editing(sid: SessionId, snapshot: Log)
    | Closed

  type Logs = map<SessionId, Log>

  datatype Sys = Sys(registry: R.Registry, logs: Logs, blobs: Blobs, jobs: seq<Job>, requests: seq<Request>)

  /** What a loaded session is edited for outside jobs and uploads. */
  datatype Edit = Withdraw(user: UserId, why: string) | Observe(observation: ChainObservation)

  function EditCommand(e: Edit): Command {
    match e
    case Withdraw(user, why) => DoCancel(user, why)
    case Observe(o) => CommandFor(o)
  }

  datatype Step =
    | Wallets(step: R.Step)
    | Propose(id: SessionId, walletId: WalletId, proposedBy: UserId, spend: SpendSpec)
    | StartUpload(sid: SessionId, user: UserId)
    | PutUpload(request: nat, signed: Psbt)
    | CommitUpload(request: nat)
    | StartEdit(sid: SessionId)
    | CommitEdit(request: nat, edit: Edit)
    | Drop(request: nat)
    | LoadJob(job: nat)
    | WorkJob(job: nat, funding: Option<seq<FundingUtxo>>)
    | CommitJob(job: nat)
    | FinishJob(job: nat)
    | CrashJob(job: nat)

  datatype Attempted = Stored | Unchanged | Rejected

  /** Run a command on a loaded copy and append what it adds, if the sequence
      numbers after the copy are still free. */
  function Attempt(logs: Logs, sid: SessionId, snapshot: Log, c: Command): (Logs, Attempted) {
    match Replay(snapshot)
    case None => (logs, Rejected)
    case Some(s) =>
      var (t, outcome) := Apply(s, c);
      match outcome
      case Failed(_) => (logs, Rejected)
      case AlreadyApplied => (logs, Unchanged)
      case Executed =>
        ApplyAppends(s, c);
        if sid in logs && |logs[sid]| == |snapshot| then
          (logs[sid := logs[sid] + t.events[|snapshot|..]], Stored)
        else (logs, Rejected)
  }

  function Put(blobs: Blobs, b: Blob): Blobs { blobs[Sha256(b) := b] }

  function WalletOf(sys: Sys, id: WalletId): Option<W.WalletState> {
    if id in sys.registry.wallets then Some(sys.registry.wallets[id]) else None
  }

  function SetPhase(sys: Sys, j: nat, phase: Phase): Sys
    requires j < |sys.jobs|
  {
    sys.(jobs := sys.jobs[j := sys.jobs[j].(phase := phase)])
  }

  function Enqueue(sys: Sys, kind: JobKind, sid: SessionId): Sys {
    sys.(jobs := sys.jobs + [Job(kind, sid, Queued)])
  }

  /** What a run of the creation job does once its plan is made. */
  function AfterCreation(sys: Sys, j: nat, snapshot: Log, plan: C.Plan): Sys
    requires j < |sys.jobs|
  {
    match plan
    case Retry => SetPhase(sys, j, Queued)
    case GiveUp(e) => SetPhase(sys, j, Finishing(GaveUp(e)))
    case Record(psbt) =>
      SetPhase(sys, j, Ready(snapshot, DoRecordPsbtCreated(Sha256(PsbtBlob(psbt)))))
        .(blobs := Put(sys.blobs, PsbtBlob(psbt)))
    case _ => SetPhase(sys, j, Finishing(Finished))
  }

  /** A run of the creation job from its loaded copy to its blob upload. */
  function WorkCreation(env: Env, sys: Sys, j: nat, snapshot: Log, s: Session, funding: Option<seq<FundingUtxo>>): Sys
    requires j < |sys.jobs|
  {
    AfterCreation(sys, j, snapshot,
                  C.PlanFor(env.crypto.child, s, WalletOf(sys, s.policy.walletId), funding, env.network))
  }

  /** What a run of the finalization job does once its plan is made. */
  function AfterFinalization(sys: Sys, j: nat, snapshot: Log, plan: F.Plan): Sys
    requires j < |sys.jobs|
  {
    match plan
    case Stuck => SetPhase(sys, j, Queued)
    case Record(txid, tx, used) =>
      SetPhase(sys, j, Ready(snapshot, DoFinalize(txid, Sha256(TxBlob(tx)), used)))
        .(blobs := Put(sys.blobs, TxBlob(tx)))
    case _ => SetPhase(sys, j, Finishing(Finished))
  }

  /** A run of the finalization job from its loaded copy to its blob upload. */
  ghost function WorkFinalization(env: Env, sys: Sys, j: nat, snapshot: Log, s: Session): Sys
    requires j < |sys.jobs|
  {
    AfterFinalization(sys, j, snapshot, F.PlanFor(env.crypto, sys.blobs, s))
  }

  ghost function JobEffect(env: Env, sys: Sys, step: Step, j: nat): Sys
    requires j < |sys.jobs|
  {
    var job := sys.jobs[j];
    match step
    case LoadJob(_) =>
      if job.phase.Queued? && job.sid in sys.logs then SetPhase(sys, j, Loaded(sys.logs[job.sid])) else sys
    case WorkJob(_, funding) =>
      if !job.phase.Loaded? then sys
      else
        var snapshot := job.phase.snapshot;
        (match Replay(snapshot)
         case None => SetPhase(sys, j, Queued)
         case Some(s) =>
           if job.kind.CreationJob? then WorkCreation(env, sys, j, snapshot, s, funding)
           else WorkFinalization(env, sys, j, snapshot, s))
    case CommitJob(_) =>
      if !job.phase.Ready? then sys
      else
        var (logs, attempted) := Attempt(sys.logs, job.sid, job.phase.snapshot, job.phase.command);
        SetPhase(sys, j, if attempted.Rejected? then Queued else Finishing(Finished)).(logs := logs)
    case FinishJob(_) =>
      if job.phase.Finishing? then SetPhase(sys, j, Complete(job.phase.verdict)) else sys
    case CrashJob(_) =>
      if job.phase.Complete? then sys else SetPhase(sys, j, Queued)
    case _ => sys
  }

  /** A cancellation, or an observation of the chain. */
  predicate IsEdit(c: Command) {
    c.DoCancel? || c.DoMarkBroadcastSeen? || c.DoConfirm? || c.DoInvalidate?
  }

  lemma EditsEdit(e: Edit)
    ensures IsEdit(EditCommand(e))
  {
  }

  ghost function RequestEffect(env: Env, sys: Sys, step: Step, k: nat): Sys
    requires k < |sys.requests|
  {
    var q := sys.requests[k];
    var closed := sys.(requests := sys.requests[k := Closed]);
    match step
    case PutUpload(_, signed) =>
      if !q.Signing? then sys
      else if Replay(q.snapshot).Some?
              && Storable(env.crypto, sys.blobs, Replay(q.snapshot).value, signed, q.fingerprint) then
        sys.(requests := sys.requests[k := Signed(q.sid, q.snapshot, q.fingerprint, Sha256(PsbtBlob(signed)))],
             blobs := Put(sys.blobs, PsbtBlob(signed)))
      else closed
    case CommitUpload(_) =>
      if !q.Signed? then sys
      else
        var (logs, attempted) := Attempt(sys.logs, q.sid, q.snapshot, DoAddSignature(q.fingerprint, q.hash));
        if attempted.Rejected? then closed
        else Enqueue(closed.(logs := logs), FinalizationJob, q.sid)
    case CommitEdit(_, e) =>
      if !q.Editing? then sys
      else closed.(logs := Attempt(sys.logs, q.sid, q.snapshot, EditCommand(e)).0)
    case Drop(_) => closed
    case _ => sys
  }

  /** One step; a step that is not possible changes nothing. */
  ghost function Effect(env: Env, sys: Sys, step: Step): Sys {
    match step
    case Wallets(s) => sys.(registry := R.Effect(sys.registry, s))
    case Propose(id, walletId, user, spend) =>
      if id !in sys.logs && walletId in sys.registry.wallets
         && P.Proposable(sys.registry.wallets[walletId], spend) then
        Enqueue(sys.(logs := sys.logs[id := [Initialized(
                       P.SnapshotOf(id, sys.registry.wallets[walletId], user, spend))]]), CreationJob, id)
      else sys
    case StartUpload(sid, user) =>
      if sid in sys.logs && Replay(sys.logs[sid]).Some?
         && Replay(sys.logs[sid]).value.policy.walletId in sys.registry.wallets then
        var wallet := sys.registry.wallets[Replay(sys.logs[sid]).value.policy.walletId];
        (match W.KeystoreFingerprintOf(wallet, user)
         case None => sys
         case Some(fp) => sys.(requests := sys.requests + [Signing(sid, sys.logs[sid], fp)]))
      else sys
    case StartEdit(sid) =>
      if sid in sys.logs then sys.(requests := sys.requests + [Editing(sid, sys.logs[sid])]) else sys
    case PutUpload(k, _) => if k < |sys.requests| then RequestEffect(env, sys, step, k) else sys
    case CommitUpload(k) => if k < |sys.requests| then RequestEffect(env, sys, step, k) else sys
    case CommitEdit(k, _) => if k < |sys.requests| then RequestEffect(env, sys, step, k) else sys
    case Drop(k) => if k < |sys.requests| then RequestEffect(env, sys, step, k) else sys
    case LoadJob(j) => if j < |sys.jobs| then JobEffect(env, sys, step, j) else sys
    case WorkJob(j, _) => if j < |sys.jobs| then JobEffect(env, sys, step, j) else sys
    case CommitJob(j) => if j < |sys.jobs| then JobEffect(env, sys, step, j) else sys
    case FinishJob(j) => if j < |sys.jobs| then JobEffect(env, sys, step, j) else sys
    case CrashJob(j) => if j < |sys.jobs| then JobEffect(env, sys, step, j) else sys
  }

  ghost function Play(env: Env, sys: Sys, steps: seq<Step>): Sys
    decreases |steps|
  {
    if steps == [] then sys else Play(env, Effect(env, sys, steps[0]), steps[1..])
  }

  function Initial(env: Env): Sys { Sys(R.Empty(env.network), map[], map[], [], []) }

  // --- what the steps that commit or move a job do, by cases ---

  lemma RejectedKeepsLogs(logs: Logs, sid: SessionId, snapshot: Log, c: Command)
    ensures !Attempt(logs, sid, snapshot, c).1.Stored? ==> Attempt(logs, sid, snapshot, c).0 == logs
  {
  }

  lemma PutEffect(env: Env, a: Sys, k: nat, signed: Psbt)
    requires k < |a.requests| && a.requests[k].Signing?
    ensures var q := a.requests[k];
            Effect(env, a, PutUpload(k, signed))
            == if Replay(q.snapshot).Some?
                  && Storable(env.crypto, a.blobs, Replay(q.snapshot).value, signed, q.fingerprint) then
                 a.(requests := a.requests[k := Signed(q.sid, q.snapshot, q.fingerprint, Sha256(PsbtBlob(signed)))],
                    blobs := Put(a.blobs, PsbtBlob(signed)))
               else a.(requests := a.requests[k := Closed])
  {
  }

  lemma UploadEffect(env: Env, a: Sys, k: nat)
    requires k < |a.requests| && a.requests[k].Signed?
    ensures var q := a.requests[k];
            var (logs, attempted) := Attempt(a.logs, q.sid, q.snapshot, DoAddSignature(q.fingerprint, q.hash));
            var closed := a.(requests := a.requests[k := Closed]);
            Effect(env, a, CommitUpload(k))
            == match attempted
               case Rejected => closed
               case Stored => Enqueue(closed.(logs := logs), FinalizationJob, q.sid)
               case Unchanged => Enqueue(closed, FinalizationJob, q.sid)
  {
    var q := a.requests[k];
    RejectedKeepsLogs(a.logs, q.sid, q.snapshot, DoAddSignature(q.fingerprint, q.hash));
  }

  lemma EditEffect(env: Env, a: Sys, k: nat, e: Edit)
    ensures Effect(env, a, CommitEdit(k, e))
            == if k < |a.requests| && a.requests[k].Editing? then
                 a.(requests := a.requests[k := Closed],
                    logs := Attempt(a.logs, a.requests[k].sid, a.requests[k].snapshot, EditCommand(e)).0)
               else a
  {
  }

  lemma JobCommitEffect(env: Env, a: Sys, j: nat)
    requires j < |a.jobs| && a.jobs[j].phase.Ready?
    ensures var job := a.jobs[j];
            var (logs, attempted) := Attempt(a.logs, job.sid, job.phase.snapshot, job.phase.command);
            Effect(env, a, CommitJob(j))
            == SetPhase(a, j, if attempted.Rejected? then Queued else Finishing(Finished)).(logs := logs)
  {
  }

  lemma LoadEffect(env: Env, a: Sys, j: nat)
    ensures Effect(env, a, LoadJob(j))
            == if j < |a.jobs| && a.jobs[j].phase.Queued? && a.jobs[j].sid in a.logs then
                 SetPhase(a, j, Loaded(a.logs[a.jobs[j].sid]))
               else a
  {
  }

  lemma FinishEffect(env: Env, a: Sys, j: nat)
    ensures Effect(env, a, FinishJob(j))
            == if j < |a.jobs| && a.jobs[j].phase.Finishing? then
                 SetPhase(a, j, Complete(a.jobs[j].phase.verdict))
               else a
  {
  }

  lemma NothingToWork(env: Env, a: Sys, j: nat, funding: Option<seq<FundingUtxo>>)
    requires j >= |a.jobs| || !a.jobs[j].phase.Loaded?
    ensures Effect(env, a, WorkJob(j, funding)) == a
  {
  }

  lemma CrashEffect(env: Env, a: Sys, j: nat)
    requires j < |a.jobs|
    ensures Effect(env, a, CrashJob(j)) == if a.jobs[j].phase.Complete? then a else SetPhase(a, j, Queued)
  {
  }

  lemma WorkEffect(env: Env, a: Sys, j: nat, funding: Option<seq<FundingUtxo>>)
    requires j < |a.jobs| && a.jobs[j].phase.Loaded? && Replay(a.jobs[j].phase.snapshot).Some?
    ensures var snapshot := a.jobs[j].phase.snapshot;
            Effect(env, a, WorkJob(j, funding))
            == if a.jobs[j].kind.CreationJob? then WorkCreation(env, a, j, snapshot, Replay(snapshot).value, funding)
               else WorkFinalization(env, a, j, snapshot, Replay(snapshot).value)
  {
  }
}
