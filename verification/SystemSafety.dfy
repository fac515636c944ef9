/** What holds in every reachable state of the platform: what stored logs, copies
    in flight and jobs must look like. */
module SystemSafety {
  import opened Foundation
  import opened Documents
  import opened Storage
  import opened Submission
  import opened Combination
  import opened SessionModel
  import opened SessionHistory
  import opened SessionLanguage
  import opened Sorting
  import opened Quorum
  import opened System
  import C = Creation
  import F = Finalization
  import R = Registry
  import W = WalletModel

  // --- stored logs ---

  /** What the events of one session are judged against. */
  datatype Facts = Facts(crypto: Crypto, blobs: Blobs, policy: Policy, descriptor: Descriptor)

  /** The recorded signers are those of `records`, sorted, and the recorded
      transaction is the one extracted from the combination of exactly their
      documents, which finalizes, as no shorter prefix of it does, and adds only
      genuine signatures. */
  ghost predicate FinalizedBy(x: Facts, unsigned: Psbt, records: seq<SignatureRecord>, tx: FinalTx,
                              f: FinalizationRecord)
  {
    && f.sigsUsed == Sort(Signers(records), FingerprintLe)
    && Fetch(x.blobs, f.finalTxHash) == Success(TxBlob(tx))
    && x.crypto.txid(tx) == f.txid
    && AllLoad(x.blobs, records) && SameInputs(unsigned, DocsOf(x.blobs, records))
    && (var combined := CombineAll(unsigned, DocsOf(x.blobs, records));
        && x.crypto.extract(combined) == Some(tx)
        && FirstToFinalize(unsigned, DocsOf(x.blobs, records))
        && SafeDocument(x.crypto, unsigned, combined))
  }

  ghost predicate FinalTxOk(x: Facts, unsigned: Psbt, sigs: seq<SignatureRecord>, f: FinalizationRecord) {
    exists n: nat, tx: FinalTx :: n <= |sigs| && FinalizedBy(x, unsigned, sigs[..n], tx, f)
  }

  /** Every hash the event records resolves to what it claims to be. `unsigned` and
      `sigs` are what its log records as the unsigned document and the signatures. */
  ghost predicate EventOk(x: Facts, unsigned: Option<PsbtHash>, sigs: seq<SignatureRecord>, e: SessionEvent) {
    match e
    case PsbtCreated(h) =>
      && unsigned == Some(h) && F.LoadPsbt(x.blobs, h).Success?
      && C.Built(x.crypto.child, x.policy, x.descriptor, F.LoadPsbt(x.blobs, h).value)
    case SignatureAdded(fp, h) =>
      && unsigned.Some? && F.LoadPsbt(x.blobs, unsigned.value).Success? && F.LoadPsbt(x.blobs, h).Success?
      && fp in x.policy.keystores
      && Acceptable(x.crypto, F.LoadPsbt(x.blobs, unsigned.value).value, F.LoadPsbt(x.blobs, h).value, fp)
    case Finalized(record) =>
      && unsigned.Some? && F.LoadPsbt(x.blobs, unsigned.value).Success?
      && FinalTxOk(x, F.LoadPsbt(x.blobs, unsigned.value).value, sigs, record)
    case _ => true
  }

  ghost predicate EventsOk(x: Facts, es: Log) {
    forall i :: 0 <= i < |es| ==> EventOk(x, LatestUnsignedHash(es), SignaturesIn(es), es[i])
  }

  /** The session's policy is that of an active stored wallet. */
  ghost predicate PolicyOk(env: Env, wallets: R.Stored, sid: SessionId, p: Policy) {
    p.id == sid && p.walletId in wallets && C.ProposedOn(p, wallets[p.walletId], env.network)
  }

  /** The descriptor of a stored wallet that has one. */
  function DescriptorIn(wallets: R.Stored, id: WalletId): Descriptor {
    if id in wallets && W.DescriptorOf(wallets[id]).Some? then W.DescriptorOf(wallets[id]).value
    else Descriptor(0, [])
  }

  function FactsOf(env: Env, wallets: R.Stored, blobs: Blobs, p: Policy): Facts {
    Facts(env.crypto, blobs, p, DescriptorIn(wallets, p.walletId))
  }

  ghost predicate LogOk(env: Env, wallets: R.Stored, blobs: Blobs, sid: SessionId, es: Log) {
    && Reachable(es)
    && LatestPolicy(es).Some?
    && PolicyOk(env, wallets, sid, LatestPolicy(es).value)
    && EventsOk(FactsOf(env, wallets, blobs, LatestPolicy(es).value), es)
  }

  // --- copies in flight ---

  ghost predicate SnapshotOk(env: Env, sys: Sys, sid: SessionId, snapshot: Log) {
    && sid in sys.logs && snapshot <= sys.logs[sid]
    && LogOk(env, sys.registry.wallets, sys.blobs, sid, snapshot)
  }

  predicate Met(es: Log) {
    StatusOf(es) == Collecting && Replay(es).Some? && ThresholdMet(Replay(es).value)
  }

  /** The event the command would record is in order. */
  ghost predicate CommandOk(x: Facts, snapshot: Log, command: Command) {
    match command
    case DoRecordPsbtCreated(h) => EventOk(x, Some(h), SignaturesIn(snapshot), PsbtCreated(h))
    case DoAddSignature(fp, h) =>
      EventOk(x, LatestUnsignedHash(snapshot), SignaturesIn(snapshot), SignatureAdded(fp, h))
    case DoFinalize(txid, h, used) =>
      EventOk(x, LatestUnsignedHash(snapshot), SignaturesIn(snapshot),
              Finalized(FinalizationRecord(txid, h, Sort(used, FingerprintLe))))
    case _ => true
  }

  function SnapshotFacts(env: Env, sys: Sys, snapshot: Log): Facts
    requires LatestPolicy(snapshot).Some?
  {
    FactsOf(env, sys.registry.wallets, sys.blobs, LatestPolicy(snapshot).value)
  }

  ghost predicate ReadyOk(env: Env, sys: Sys, kind: JobKind, snapshot: Log, command: Command)
    requires LatestPolicy(snapshot).Some?
  {
    && CommandOk(SnapshotFacts(env, sys, snapshot), snapshot, command)
    && (kind.CreationJob? ==> command.DoRecordPsbtCreated? && StatusOf(snapshot) == Pending)
    && (kind.FinalizationJob? ==> command.DoFinalize? && Met(snapshot))
  }

  ghost predicate VerdictOk(sys: Sys, job: Job, v: Verdict)
    requires job.sid in sys.logs
  {
    v.GaveUp? ==>
      && job.kind.CreationJob? && LatestPolicy(sys.logs[job.sid]).Some?
      && C.Unbalanced(LatestPolicy(sys.logs[job.sid]).value.spend, v.error)
  }

  ghost predicate JobOk(env: Env, sys: Sys, job: Job) {
    && job.sid in sys.logs
    && match job.phase
       case Queued => true
       case Loaded(snapshot) => SnapshotOk(env, sys, job.sid, snapshot)
       case Ready(snapshot, command) =>
         SnapshotOk(env, sys, job.sid, snapshot) && ReadyOk(env, sys, job.kind, snapshot, command)
       case Finishing(v) => VerdictOk(sys, job, v)
       case Complete(v) => VerdictOk(sys, job, v)
  }

  ghost predicate RequestOk(env: Env, sys: Sys, q: Request) {
    match q
    case Signing(sid, snapshot, fp) =>
      SnapshotOk(env, sys, sid, snapshot) && fp in LatestPolicy(snapshot).value.keystores
    case Signed(sid, snapshot, fp, hash) =>
      SnapshotOk(env, sys, sid, snapshot)
      && CommandOk(SnapshotFacts(env, sys, snapshot), snapshot, DoAddSignature(fp, hash))
    case Editing(sid, snapshot) => SnapshotOk(env, sys, sid, snapshot)
    case Closed => true
  }

  // --- nobody is stranded ---

  /** A finalization job that will act on the quorum: not started, or working on
      a copy that already had it. */
  predicate Finalizes(job: Job, sid: SessionId) {
    && job.kind.FinalizationJob? && job.sid == sid
    && match job.phase
       case Queued => true
       case Loaded(snapshot) => Met(snapshot)
       case Ready(snapshot, _) => Met(snapshot)
       case _ => false
  }

  /** A creation job that will act on the proposal, or gave up on it. */
  predicate Creates(job: Job, sid: SessionId) {
    && job.kind.CreationJob? && job.sid == sid
    && match job.phase
       case Queued => true
       case Loaded(snapshot) => StatusOf(snapshot) == Pending
       case Ready(snapshot, _) => StatusOf(snapshot) == Pending
       case Finishing(v) => v.GaveUp?
       case Complete(v) => v.GaveUp?
  }

  ghost predicate Served(jobs: seq<Job>, sid: SessionId, es: Log) {
    && (Met(es) ==> exists j :: 0 <= j < |jobs| && Finalizes(jobs[j], sid))
    && (StatusOf(es) == Pending ==> exists j :: 0 <= j < |jobs| && Creates(jobs[j], sid))
  }

  ghost predicate LogsOk(env: Env, sys: Sys) {
    forall sid :: sid in sys.logs ==> LogOk(env, sys.registry.wallets, sys.blobs, sid, sys.logs[sid])
  }

  ghost predicate JobsOk(env: Env, sys: Sys) {
    forall j :: 0 <= j < |sys.jobs| ==> JobOk(env, sys, sys.jobs[j])
  }

  ghost predicate RequestsOk(env: Env, sys: Sys) {
    forall k :: 0 <= k < |sys.requests| ==> RequestOk(env, sys, sys.requests[k])
  }

  ghost predicate AllServed(sys: Sys) {
    forall sid :: sid in sys.logs ==> Served(sys.jobs, sid, sys.logs[sid])
  }

  ghost predicate RegistryOk(env: Env, sys: Sys) {
    R.Consistent(sys.registry) && sys.registry.network == env.network
  }

  ghost predicate Inv(env: Env, sys: Sys) {
    RegistryOk(env, sys) && LogsOk(env, sys) && JobsOk(env, sys) && RequestsOk(env, sys) && AllServed(sys)
  }

  // --- reachable logs load, and commands keep them reachable ---

  lemma ReachableLoads(es: Log)
    requires Reachable(es)
    ensures Replay(es).Some? && Hydrated(Replay(es).value) && es != []
    ensures ValidPolicy(LatestPolicy(es).value)
  {
    var p: Policy, cs: seq<Command> :| ValidPolicy(p) && Run(Proposed(p), cs).events == es;
    ProposedIsHydrated(p);
    HydrationClosure(Proposed(p), cs);
  }

  lemma ReachableStep(es: Log, c: Command)
    requires Reachable(es) && Replay(es).Some?
    ensures Reachable(Apply(Replay(es).value, c).0.events)
    ensures Replay(Apply(Replay(es).value, c).0.events) == Some(Apply(Replay(es).value, c).0)
  {
    var p: Policy, cs: seq<Command> :| ValidPolicy(p) && Run(Proposed(p), cs).events == es;
    ProposedIsHydrated(p);
    HydrationClosure(Proposed(p), cs);
    assert Replay(es) == Some(Run(Proposed(p), cs));
    RunSnoc(Proposed(p), cs, c);
    CommandKeepsHydrated(Run(Proposed(p), cs), c);
    assert Run(Proposed(p), cs + [c]).events == Apply(Replay(es).value, c).0.events;
  }

  /** A collecting session is not finalized. */
  lemma CollectingNotFinal(es: Log)
    requires Reachable(es) && StatusOf(es) == Collecting
    ensures LatestFinalization(es).None?
  {
    LogLanguage(es);
    var p: Policy, b: Body :| WellFormed(p, b) && Render(p, b) == es;
    BodyStatusFacts(p, b);
    RenderReplays(p, b);
  }

  // --- growth: stores and logs only gain ---

  ghost predicate BlobsGrow(a: Blobs, b: Blobs) {
    forall h :: Fetch(a, h).Success? ==> Fetch(b, h) == Fetch(a, h)
  }

  ghost predicate WalletsGrow(a: R.Stored, b: R.Stored) {
    forall id :: id in a && W.StatusOf(a[id].events) == W.Active ==> id in b && b[id] == a[id]
  }

  ghost predicate LogsGrow(a: Logs, b: Logs) {
    forall sid :: sid in a ==> sid in b && a[sid] <= b[sid]
  }

  ghost predicate Grows(a: Sys, b: Sys) {
    && BlobsGrow(a.blobs, b.blobs)
    && WalletsGrow(a.registry.wallets, b.registry.wallets)
    && LogsGrow(a.logs, b.logs)
  }

  lemma PutGrows(blobs: Blobs, b: Blob)
    ensures BlobsGrow(blobs, Put(blobs, b))
    ensures Fetch(Put(blobs, b), Sha256(b)) == Success(b)
  {
  }

  lemma FinalTxGrows(x: Facts, blobs: Blobs, unsigned: Psbt, sigs: seq<SignatureRecord>, later: seq<SignatureRecord>,
                     f: FinalizationRecord)
    requires BlobsGrow(x.blobs, blobs) && sigs <= later && FinalTxOk(x, unsigned, sigs, f)
    ensures FinalTxOk(x.(blobs := blobs), unsigned, later, f)
  {
    var n: nat, tx: FinalTx :| n <= |sigs| && FinalizedBy(x, unsigned, sigs[..n], tx, f);
    var records := sigs[..n];
    assert later[..n] == records;
    assert DocsOf(blobs, records) == DocsOf(x.blobs, records);
    assert FinalizedBy(x.(blobs := blobs), unsigned, records, tx, f);
  }

  lemma EventGrows(x: Facts, blobs: Blobs, unsigned: Option<PsbtHash>, sigs: seq<SignatureRecord>,
                   later: seq<SignatureRecord>, e: SessionEvent)
    requires BlobsGrow(x.blobs, blobs) && sigs <= later && EventOk(x, unsigned, sigs, e)
    ensures EventOk(x.(blobs := blobs), unsigned, later, e)
  {
    if e.Finalized? {
      FinalTxGrows(x, blobs, F.LoadPsbt(x.blobs, unsigned.value).value, sigs, later, e.record);
    }
  }

  lemma EventsGrow(x: Facts, blobs: Blobs, es: Log)
    requires BlobsGrow(x.blobs, blobs) && EventsOk(x, es)
    ensures EventsOk(x.(blobs := blobs), es)
  {
    forall i | 0 <= i < |es| ensures EventOk(x.(blobs := blobs), LatestUnsignedHash(es), SignaturesIn(es), es[i]) {
      EventGrows(x, blobs, LatestUnsignedHash(es), SignaturesIn(es), SignaturesIn(es), es[i]);
    }
  }

  lemma LogGrows(env: Env, v: R.Stored, w: R.Stored, a: Blobs, b: Blobs, sid: SessionId, es: Log)
    requires WalletsGrow(v, w) && BlobsGrow(a, b) && LogOk(env, v, a, sid, es)
    ensures LogOk(env, w, b, sid, es)
  {
    EventsGrow(FactsOf(env, v, a, LatestPolicy(es).value), b, es);
  }

  lemma CommandGrows(x: Facts, blobs: Blobs, snapshot: Log, command: Command)
    requires BlobsGrow(x.blobs, blobs) && CommandOk(x, snapshot, command)
    ensures CommandOk(x.(blobs := blobs), snapshot, command)
  {
    var unsigned, sigs := LatestUnsignedHash(snapshot), SignaturesIn(snapshot);
    match command
    case DoRecordPsbtCreated(h) => EventGrows(x, blobs, Some(h), sigs, sigs, PsbtCreated(h));
    case DoAddSignature(fp, h) => EventGrows(x, blobs, unsigned, sigs, sigs, SignatureAdded(fp, h));
    case DoFinalize(txid, h, used) =>
      EventGrows(x, blobs, unsigned, sigs, sigs, Finalized(FinalizationRecord(txid, h, Sort(used, FingerprintLe))));
    case _ =>
  }

  lemma SnapshotGrows(env: Env, a: Sys, b: Sys, sid: SessionId, snapshot: Log)
    requires Grows(a, b) && SnapshotOk(env, a, sid, snapshot)
    ensures SnapshotOk(env, b, sid, snapshot)
    ensures SnapshotFacts(env, b, snapshot) == SnapshotFacts(env, a, snapshot).(blobs := b.blobs)
  {
    LogGrows(env, a.registry.wallets, b.registry.wallets, a.blobs, b.blobs, sid, snapshot);
  }

  /** Policies never change. */
  ghost predicate SamePolicies(a: Sys, b: Sys) {
    forall sid :: sid in a.logs && sid in b.logs ==> LatestPolicy(a.logs[sid]) == LatestPolicy(b.logs[sid])
  }

  lemma JobGrows(env: Env, a: Sys, b: Sys, job: Job)
    requires Grows(a, b) && SamePolicies(a, b) && JobOk(env, a, job)
    ensures JobOk(env, b, job)
  {
    if job.phase.Loaded? {
      SnapshotGrows(env, a, b, job.sid, job.phase.snapshot);
    } else if job.phase.Ready? {
      SnapshotGrows(env, a, b, job.sid, job.phase.snapshot);
      CommandGrows(SnapshotFacts(env, a, job.phase.snapshot), b.blobs, job.phase.snapshot, job.phase.command);
    }
  }

  lemma RequestGrows(env: Env, a: Sys, b: Sys, q: Request)
    requires Grows(a, b) && RequestOk(env, a, q)
    ensures RequestOk(env, b, q)
  {
    if q.Signing? {
      SnapshotGrows(env, a, b, q.sid, q.snapshot);
    } else if q.Signed? {
      SnapshotGrows(env, a, b, q.sid, q.snapshot);
      CommandGrows(SnapshotFacts(env, a, q.snapshot), b.blobs, q.snapshot, DoAddSignature(q.fingerprint, q.hash));
    } else if q.Editing? {
      SnapshotGrows(env, a, b, q.sid, q.snapshot);
    }
  }

  // --- commits ---

  /** What a command appends to a log in order is in order. */
  lemma CommandKeepsLog(env: Env, wallets: R.Stored, blobs: Blobs, sid: SessionId, es: Log, c: Command)
    requires LogOk(env, wallets, blobs, sid, es) && Replay(es).Some?
    requires CommandOk(FactsOf(env, wallets, blobs, LatestPolicy(es).value), es, c)
    requires Apply(Replay(es).value, c).1.Executed?
    ensures LogOk(env, wallets, blobs, sid, Apply(Replay(es).value, c).0.events)
    ensures LatestPolicy(Apply(Replay(es).value, c).0.events) == LatestPolicy(es)
  {
    var s := Replay(es).value;
    ReachableStep(es, c);
    AppendedEvent(s, c);
    var e := Apply(s, c).0.events[|es|];
    ReplaySnoc(es, e);
    if c.DoRecordPsbtCreated? { C.PendingIsFresh(es); }
    AppendedIsOk(FactsOf(env, wallets, blobs, LatestPolicy(es).value), es, e);
  }

  /** One more event in order; the unsigned document is recorded at most once. */
  lemma AppendedIsOk(x: Facts, es: Log, e: SessionEvent)
    requires EventsOk(x, es) && EventOk(x, LatestUnsignedHash(es + [e]), SignaturesIn(es), e) && !e.Initialized?
    requires LatestUnsignedHash(es).None? || LatestUnsignedHash(es + [e]) == LatestUnsignedHash(es)
    ensures EventsOk(x, es + [e])
  {
    var after := es + [e];
    var sigs, later := SignaturesIn(es), SignaturesIn(after);
    ReplaySnoc(es, e);
    assert x.(blobs := x.blobs) == x;
    forall i | 0 <= i < |after| ensures EventOk(x, LatestUnsignedHash(after), later, after[i]) {
      if i < |es| {
        assert EventOk(x, LatestUnsignedHash(es), sigs, es[i]);
        EventGrows(x, x.blobs, LatestUnsignedHash(es), sigs, later, es[i]);
      } else {
        EventGrows(x, x.blobs, LatestUnsignedHash(after), sigs, later, e);
      }
    }
  }

  /** The event a command that takes effect records. */
  lemma AppendedEvent(s: Session, c: Command)
    requires Apply(s, c).1.Executed?
    ensures |Apply(s, c).0.events| == |s.events| + 1
    ensures var e := Apply(s, c).0.events[|s.events|];
            && !e.Initialized?
            && (e.PsbtCreated? <==> c.DoRecordPsbtCreated?)
            && (c.DoRecordPsbtCreated? ==> e == PsbtCreated(c.hash) && StatusOf(s.events) == Pending)
            && (e.SignatureAdded? <==> c.DoAddSignature?)
            && (c.DoAddSignature? ==> e == SignatureAdded(c.fingerprint, c.hash))
            && (e.Finalized? <==> c.DoFinalize?)
            && (c.DoFinalize? ==> e.record == FinalizationRecord(c.txid, c.hash, Sort(c.sigsUsed, FingerprintLe)))
            && Apply(s, c).0.events == s.events + [e]
  {
    if c.DoFinalize? { FinalizeRecords(s, c.txid, c.hash, c.sigsUsed); }
  }

  /** A commit stores nothing, or exactly the command's result on the stored log:
      equal versions are equal logs. */
  lemma AttemptMeaning(env: Env, sys: Sys, sid: SessionId, snapshot: Log, c: Command)
    requires SnapshotOk(env, sys, sid, snapshot)
    ensures Replay(snapshot).Some?
    ensures var (logs, attempted) := Attempt(sys.logs, sid, snapshot, c);
            var (t, outcome) := Apply(Replay(snapshot).value, c);
            && (attempted != Stored ==> logs == sys.logs)
            && (attempted.Unchanged? <==> outcome.AlreadyApplied?)
            && (attempted.Stored? <==> outcome.Executed? && sys.logs[sid] == snapshot)
            && (attempted.Stored? ==> logs == sys.logs[sid := t.events] && snapshot <= t.events)
  {
    hide EventsOk, Apply;
    ReachableLoads(snapshot);
    var (t, outcome) := Apply(Replay(snapshot).value, c);
    ApplyAppends(Replay(snapshot).value, c);
    if outcome.Executed? && |sys.logs[sid]| == |snapshot| {
      assert sys.logs[sid] == snapshot;
      assert snapshot + t.events[|snapshot|..] == t.events;
    }
  }
}
