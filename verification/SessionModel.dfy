/** The signing session as a value: its event log, the status and idempotency
    scans over that log, hydration, and every command as a function. The class
    in `Session` is proved to compute these functions. */
module SessionModel {
  import opened Foundation
  import opened Documents
  import opened Sorting

  datatype InvalidationReason = Reorged | InputsSpentExternally | ReplacedByFeeBump | MempoolEvicted

  datatype SessionEvent =
    | Initialized(policy: Policy)
    | PsbtCreated(unsignedHash: PsbtHash)
    | SignatureAdded(fingerprint: Fingerprint, signedHash: PsbtHash)
    | Finalized(record: FinalizationRecord)
    | BroadcastSeen(txid: Txid)
    | Confirmed(txid: Txid, height: U64, blockHash: int)
    | Invalidated(reason: InvalidationReason)
    | Cancelled(cancelledBy: UserId, why: string)

  /** The immutable part of a session, recorded once when it is proposed. */
  datatype Policy = Policy(
    id: SessionId,
    walletId: WalletId,
    proposedBy: UserId,
    spend: SpendSpec,
    threshold: U32,
    keystores: seq<Fingerprint>)

  datatype SignatureRecord = SignatureRecord(fingerprint: Fingerprint, signedHash: PsbtHash)

  datatype FinalizationRecord = FinalizationRecord(
    txid: Txid, finalTxHash: PsbtHash, sigsUsed: seq<Fingerprint>)

  datatype Status =
    Pending | Collecting | FinalizedStatus | Broadcast | ConfirmedStatus | InvalidatedStatus | CancelledStatus

  type Log = seq<SessionEvent>

  // --- scans, newest event first ---

  function StatusSetBy(e: SessionEvent): Option<Status> {
    match e
    case Cancelled(_, _) => Some(CancelledStatus)
    case Confirmed(_, _, _) => Some(ConfirmedStatus)
    case Invalidated(_) => Some(InvalidatedStatus)
    case BroadcastSeen(_) => Some(Broadcast)
    case Finalized(_) => Some(FinalizedStatus)
    case PsbtCreated(_) => Some(Collecting)
    case _ => None
  }

  function StatusScan(es: Log): Option<Status> {
    if es == [] then None
    else
      var newest := StatusSetBy(es[|es| - 1]);
      if newest.Some? then newest else StatusScan(es[..|es| - 1])
  }

  function StatusOf(es: Log): Status {
    match StatusScan(es)
    case Some(status) => status
    case None => Pending
  }

  /** The event patterns the idempotency guards name. */
  datatype Pattern =
    | AnyPsbtCreated | SignatureBy(fingerprint: Fingerprint) | AnyFinalized | AnyBroadcastSeen
    | AnyConfirmed | AnyInvalidated | AnyCancelled | NoEvent

  predicate Matches(p: Pattern, e: SessionEvent) {
    match p
    case AnyPsbtCreated => e.PsbtCreated?
    case SignatureBy(fp) => e.SignatureAdded? && e.fingerprint == fp
    case AnyFinalized => e.Finalized?
    case AnyBroadcastSeen => e.BroadcastSeen?
    case AnyConfirmed => e.Confirmed?
    case AnyInvalidated => e.Invalidated?
    case AnyCancelled => e.Cancelled?
    case NoEvent => false
  }

  datatype ScanResult = Hit | Stopped | Exhausted

  /** `idempotency_guard!`: newest to oldest, the first `applied` match means
      the command already ran, the first `resets` match ends the scan. */
  function Scan(es: Log, applied: Pattern, resets: Pattern): ScanResult {
    if es == [] then Exhausted
    else
      var e := es[|es| - 1];
      if Matches(applied, e) then Hit
      else if Matches(resets, e) then Stopped
      else Scan(es[..|es| - 1], applied, resets)
  }

  predicate AlreadyRecorded(es: Log, applied: Pattern, resets: Pattern) {
    Scan(es, applied, resets) == Hit
  }

  // --- replay: what a builder accumulates from the log ---

  function LatestPolicy(es: Log): Option<Policy> {
    if es == [] then None
    else
      var e := es[|es| - 1];
      if e.Initialized? then Some(e.policy) else LatestPolicy(es[..|es| - 1])
  }

  function LatestUnsignedHash(es: Log): Option<PsbtHash> {
    if es == [] then None
    else
      var e := es[|es| - 1];
      if e.PsbtCreated? then Some(e.unsignedHash) else LatestUnsignedHash(es[..|es| - 1])
  }

  function LatestFinalization(es: Log): Option<FinalizationRecord> {
    if es == [] then None
    else
      var e := es[|es| - 1];
      if e.Finalized? then Some(e.record) else LatestFinalization(es[..|es| - 1])
  }

  function SignaturesIn(es: Log): seq<SignatureRecord> {
    if es == [] then []
    else
      var e := es[|es| - 1];
      var before := SignaturesIn(es[..|es| - 1]);
      if e.SignatureAdded? then before + [SignatureRecord(e.fingerprint, e.signedHash)] else before
  }

  /** The session entity: cached fields beside the log. */
  datatype Session = Session(
    policy: Policy,
    unsignedHash: Option<PsbtHash>,
    signatures: seq<SignatureRecord>,
    finalization: Option<FinalizationRecord>,
    events: Log)

  function Signers(sigs: seq<SignatureRecord>): (r: seq<Fingerprint>)
    ensures |r| == |sigs|
    ensures forall i :: 0 <= i < |r| ==> r[i] == sigs[i].fingerprint
  {
    seq(|sigs|, i requires 0 <= i < |sigs| => sigs[i].fingerprint)
  }

  predicate HasSigned(sigs: seq<SignatureRecord>, fp: Fingerprint) {
    exists i :: 0 <= i < |sigs| && sigs[i].fingerprint == fp
  }

  ghost predicate ValidPolicy(p: Policy) {
    0 < p.threshold <= |p.keystores| && Distinct(p.keystores)
  }

  ghost predicate ValidSignatures(p: Policy, sigs: seq<SignatureRecord>) {
    && Distinct(Signers(sigs))
    && forall i :: 0 <= i < |sigs| ==> sigs[i].fingerprint in p.keystores
  }

  ghost predicate ValidFinalization(p: Policy, sigs: seq<SignatureRecord>, f: FinalizationRecord) {
    && |f.sigsUsed| >= p.threshold
    && Distinct(f.sigsUsed)
    && forall i :: 0 <= i < |f.sigsUsed| ==> HasSigned(sigs, f.sigsUsed[i])
  }

  /** The construction invariants that hydration re-asserts. */
  ghost predicate Invariants(s: Session) {
    && ValidPolicy(s.policy)
    && ValidSignatures(s.policy, s.signatures)
    && (s.finalization.Some? ==> ValidFinalization(s.policy, s.signatures, s.finalization.value))
  }

  /** The entity a log folds to, if it names a policy at all. */
  function Replay(es: Log): Option<Session> {
    match LatestPolicy(es)
    case None => None
    case Some(p) =>
      Some(Session(p, LatestUnsignedHash(es), SignaturesIn(es), LatestFinalization(es), es))
  }

  /** `s` is exactly what loading its own log yields. */
  ghost predicate Hydrated(s: Session) {
    Replay(s.events) == Some(s) && Invariants(s)
  }

  // --- commands ---

  datatype SessionError =
    | CannotAttachPsbt(status: Status)
    | NotCollecting
    | UnknownKeystore(fingerprint: Fingerprint)
    | ThresholdNotMet(collected: nat, threshold: U32)
    | DuplicateSigsUsed
    | SigsUsedNotCollected
    | NotFinalized
    | TxidMismatch
    | CannotInvalidate(status: Status)
    | CannotCancel(status: Status)

  datatype Outcome = Executed | AlreadyApplied | Failed(error: SessionError)

  predicate FingerprintLe(a: Fingerprint, b: Fingerprint) { a <= b }

  predicate ThresholdMet(s: Session) { |s.signatures| >= s.policy.threshold }

  function RecordPsbtCreated(s: Session, hash: PsbtHash): (Session, Outcome) {
    if AlreadyRecorded(s.events, AnyPsbtCreated, NoEvent) then (s, AlreadyApplied)
    else if StatusOf(s.events) != Pending then (s, Failed(CannotAttachPsbt(StatusOf(s.events))))
    else (s.(unsignedHash := Some(hash), events := s.events + [PsbtCreated(hash)]), Executed)
  }

  function AddSignature(s: Session, fp: Fingerprint, hash: PsbtHash): (Session, Outcome) {
    if AlreadyRecorded(s.events, SignatureBy(fp), NoEvent) then (s, AlreadyApplied)
    else if StatusOf(s.events) != Collecting then (s, Failed(NotCollecting))
    else if fp !in s.policy.keystores then (s, Failed(UnknownKeystore(fp)))
    else (s.(signatures := s.signatures + [SignatureRecord(fp, hash)],
             events := s.events + [SignatureAdded(fp, hash)]), Executed)
  }

  function Finalize(s: Session, txid: Txid, hash: PsbtHash, sigsUsed: seq<Fingerprint>): (Session, Outcome) {
    var sorted := Dedup(Sort(sigsUsed, FingerprintLe));
    if AlreadyRecorded(s.events, AnyFinalized, NoEvent) then (s, AlreadyApplied)
    else if StatusOf(s.events) != Collecting then (s, Failed(NotCollecting))
    else if |sigsUsed| < s.policy.threshold then (s, Failed(ThresholdNotMet(|sigsUsed|, s.policy.threshold)))
    else if |sorted| != |sigsUsed| then (s, Failed(DuplicateSigsUsed))
    else if exists i :: 0 <= i < |sorted| && !HasSigned(s.signatures, sorted[i]) then (s, Failed(SigsUsedNotCollected))
    else
      var record := FinalizationRecord(txid, hash, sorted);
      (s.(finalization := Some(record), events := s.events + [Finalized(record)]), Executed)
  }

  function MarkBroadcastSeen(s: Session, txid: Txid): (Session, Outcome) {
    if s.finalization.None? then (s, Failed(NotFinalized))
    else if s.finalization.value.txid != txid then (s, Failed(TxidMismatch))
    else if AlreadyRecorded(s.events, AnyBroadcastSeen, NoEvent) then (s, AlreadyApplied)
    else if StatusOf(s.events) == ConfirmedStatus then (s, AlreadyApplied)
    else (s.(events := s.events + [BroadcastSeen(txid)]), Executed)
  }

  function Confirm(s: Session, txid: Txid, height: U64, blockHash: int): (Session, Outcome) {
    if s.finalization.None? then (s, Failed(NotFinalized))
    else if s.finalization.value.txid != txid then (s, Failed(TxidMismatch))
    else if AlreadyRecorded(s.events, AnyConfirmed, AnyInvalidated) then (s, AlreadyApplied)
    else (s.(events := s.events + [Confirmed(txid, height, blockHash)]), Executed)
  }

  function Invalidate(s: Session, reason: InvalidationReason): (Session, Outcome) {
    if AlreadyRecorded(s.events, AnyInvalidated, AnyConfirmed) then (s, AlreadyApplied)
    else if StatusOf(s.events) != Broadcast && StatusOf(s.events) != ConfirmedStatus then
      (s, Failed(CannotInvalidate(StatusOf(s.events))))
    else (s.(events := s.events + [Invalidated(reason)]), Executed)
  }

  function Cancel(s: Session, user: UserId, why: string): (Session, Outcome) {
    if AlreadyRecorded(s.events, AnyCancelled, NoEvent) then (s, AlreadyApplied)
    else if StatusOf(s.events) !in {Pending, Collecting, FinalizedStatus} then
      (s, Failed(CannotCancel(StatusOf(s.events))))
    else (s.(events := s.events + [Cancelled(user, why)]), Executed)
  }

  datatype Command =
    | DoRecordPsbtCreated(hash: PsbtHash)
    | DoAddSignature(fingerprint: Fingerprint, hash: PsbtHash)
    | DoFinalize(txid: Txid, hash: PsbtHash, sigsUsed: seq<Fingerprint>)
    | DoMarkBroadcastSeen(txid: Txid)
    | DoConfirm(txid: Txid, height: U64, blockHash: int)
    | DoInvalidate(reason: InvalidationReason)
    | DoCancel(user: UserId, why: string)

  function Apply(s: Session, c: Command): (Session, Outcome) {
    match c
    case DoRecordPsbtCreated(hash) => RecordPsbtCreated(s, hash)
    case DoAddSignature(fp, hash) => AddSignature(s, fp, hash)
    case DoFinalize(txid, hash, sigs) => Finalize(s, txid, hash, sigs)
    case DoMarkBroadcastSeen(txid) => MarkBroadcastSeen(s, txid)
    case DoConfirm(txid, height, blockHash) => Confirm(s, txid, height, blockHash)
    case DoInvalidate(reason) => Invalidate(s, reason)
    case DoCancel(user, why) => Cancel(s, user, why)
  }

  predicate IsUserCommand(c: Command) {
    c.DoRecordPsbtCreated? || c.DoAddSignature? || c.DoFinalize? || c.DoCancel?
  }

  /** Commands delivered one after the other. */
  function Run(s: Session, cs: seq<Command>): Session
    decreases |cs|
  {
    if cs == [] then s else Run(Apply(s, cs[0]).0, cs[1..])
  }

  /** A freshly proposed session. */
  function Proposed(p: Policy): Session {
    Session(p, None, [], None, [Initialized(p)])
  }

  lemma FingerprintOrder()
    ensures TotalPreorder(FingerprintLe)
    ensures forall s: seq<Fingerprint> :: AntisymmetricOn(FingerprintLe, s)
  {
  }
}
