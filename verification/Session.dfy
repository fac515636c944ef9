/** The session entity as the sources keep it: an object whose commands append
    to its log and update its cached fields in place. Every method is proved to
    compute the function of the same name in `SessionModel`. */
module SessionEntity {
  import opened Foundation
  import opened Documents
  import opened Sorting
  import opened SessionModel

  /** Why a persisted log does not load. */
  datatype Violation =
    | MissingPolicy
    | ThresholdOutOfRange
    | DuplicateKeystore
    | ForeignSignature(fingerprint: Fingerprint)
    | DuplicateSignature(fingerprint: Fingerprint)
    | FinalizedBelowThreshold
    | DuplicateInSigsUsed
    | UncollectedInSigsUsed

  /** The guard macro's loop. */
  method GuardHolds(es: Log, applied: Pattern, resets: Pattern) returns (hit: bool)
    ensures hit <==> AlreadyRecorded(es, applied, resets)
  {
    var i := |es|;
    assert es[..i] == es;
    while i > 0
      invariant 0 <= i <= |es|
      invariant Scan(es, applied, resets) == Scan(es[..i], applied, resets)
    {
      i := i - 1;
      assert es[..i + 1][..i] == es[..i];
      if Matches(applied, es[i]) { return true; }
      if Matches(resets, es[i]) { return false; }
    }
    hit := false;
  }

  class PsbtSession {
    const policy: Policy
    var unsignedHash: Option<PsbtHash>
    var signatures: seq<SignatureRecord>
    var finalization: Option<FinalizationRecord>
    var events: Log

    function State(): Session
      reads this
    {
      Session(policy, unsignedHash, signatures, finalization, events)
    }

    constructor (s: Session)
      ensures State() == s
    {
      policy := s.policy;
      unsignedHash := s.unsignedHash;
      signatures := s.signatures;
      finalization := s.finalization;
      events := s.events;
    }

    method CurrentStatus() returns (status: Status)
      ensures status == StatusOf(events)
    {
      var i := |events|;
      assert events[..i] == events;
      while i > 0
        invariant 0 <= i <= |events|
        invariant StatusScan(events) == StatusScan(events[..i])
      {
        i := i - 1;
        assert events[..i + 1][..i] == events[..i];
        var setBy := StatusSetBy(events[i]);
        if setBy.Some? { return setBy.value; }
      }
      status := Pending;
    }

    method RecordPsbtCreated(hash: PsbtHash) returns (outcome: Outcome)
      modifies this
      ensures (State(), outcome) == SessionModel.RecordPsbtCreated(old(State()), hash)
    {
      var applied := GuardHolds(events, AnyPsbtCreated, NoEvent);
      if applied { return AlreadyApplied; }
      var status := CurrentStatus();
      if status != Pending { return Failed(CannotAttachPsbt(status)); }
      unsignedHash := Some(hash);
      events := events + [PsbtCreated(hash)];
      outcome := Executed;
    }

    method AddSignature(fp: Fingerprint, hash: PsbtHash) returns (outcome: Outcome)
      modifies this
      ensures (State(), outcome) == SessionModel.AddSignature(old(State()), fp, hash)
    {
      var applied := GuardHolds(events, SignatureBy(fp), NoEvent);
      if applied { return AlreadyApplied; }
      var status := CurrentStatus();
      if status != Collecting { return Failed(NotCollecting); }
      if fp !in policy.keystores { return Failed(UnknownKeystore(fp)); }
      signatures := signatures + [SignatureRecord(fp, hash)];
      events := events + [SignatureAdded(fp, hash)];
      outcome := Executed;
    }

    method Finalize(txid: Txid, hash: PsbtHash, used: seq<Fingerprint>) returns (outcome: Outcome)
      modifies this
      ensures (State(), outcome) == SessionModel.Finalize(old(State()), txid, hash, used)
    {
      var applied := GuardHolds(events, AnyFinalized, NoEvent);
      if applied { return AlreadyApplied; }
      var status := CurrentStatus();
      if status != Collecting { return Failed(NotCollecting); }
      if |used| < policy.threshold { return Failed(ThresholdNotMet(|used|, policy.threshold)); }
      var dedup := Dedup(Sort(used, FingerprintLe));
      if |dedup| != |used| { return Failed(DuplicateSigsUsed); }
      var i := 0;
      while i < |dedup|
        invariant 0 <= i <= |dedup|
        invariant forall j :: 0 <= j < i ==> HasSigned(signatures, dedup[j])
      {
        if !HasSigned(signatures, dedup[i]) { return Failed(SigsUsedNotCollected); }
        i := i + 1;
      }
      var record := FinalizationRecord(txid, hash, dedup);
      finalization := Some(record);
      events := events + [Finalized(record)];
      outcome := Executed;
    }

    method MarkBroadcastSeen(txid: Txid) returns (outcome: Outcome)
      modifies this
      ensures (State(), outcome) == SessionModel.MarkBroadcastSeen(old(State()), txid)
    {
      if finalization.None? { return Failed(NotFinalized); }
      if finalization.value.txid != txid { return Failed(TxidMismatch); }
      var applied := GuardHolds(events, AnyBroadcastSeen, NoEvent);
      if applied { return AlreadyApplied; }
      var status := CurrentStatus();
      if status == ConfirmedStatus { return AlreadyApplied; }
      events := events + [BroadcastSeen(txid)];
      outcome := Executed;
    }

    method Confirm(txid: Txid, height: U64, blockHash: int) returns (outcome: Outcome)
      modifies this
      ensures (State(), outcome) == SessionModel.Confirm(old(State()), txid, height, blockHash)
    {
      if finalization.None? { return Failed(NotFinalized); }
      if finalization.value.txid != txid { return Failed(TxidMismatch); }
      var applied := GuardHolds(events, AnyConfirmed, AnyInvalidated);
      if applied { return AlreadyApplied; }
      events := events + [Confirmed(txid, height, blockHash)];
      outcome := Executed;
    }

    method Invalidate(reason: InvalidationReason) returns (outcome: Outcome)
      modifies this
      ensures (State(), outcome) == SessionModel.Invalidate(old(State()), reason)
    {
      var applied := GuardHolds(events, AnyInvalidated, AnyConfirmed);
      if applied { return AlreadyApplied; }
      var status := CurrentStatus();
      if status != Broadcast && status != ConfirmedStatus { return Failed(CannotInvalidate(status)); }
      events := events + [Invalidated(reason)];
      outcome := Executed;
    }

    method Cancel(user: UserId, why: string) returns (outcome: Outcome)
      modifies this
      ensures (State(), outcome) == SessionModel.Cancel(old(State()), user, why)
    {
      var applied := GuardHolds(events, AnyCancelled, NoEvent);
      if applied { return AlreadyApplied; }
      var status := CurrentStatus();
      if status !in {Pending, Collecting, FinalizedStatus} { return Failed(CannotCancel(status)); }
      events := events + [Cancelled(user, why)];
      outcome := Executed;
    }
  }

  /** What the violation reported for a log means. */
  ghost predicate Explains(v: Violation, s: Session) {
    match v
    case MissingPolicy => false
    case ThresholdOutOfRange => !(0 < s.policy.threshold <= |s.policy.keystores|)
    case DuplicateKeystore => !Distinct(s.policy.keystores)
    case ForeignSignature(fp) => HasSigned(s.signatures, fp) && fp !in s.policy.keystores
    case DuplicateSignature(fp) =>
      exists i, j :: 0 <= i < j < |s.signatures| && s.signatures[i].fingerprint == fp == s.signatures[j].fingerprint
    case FinalizedBelowThreshold => s.finalization.Some? && |s.finalization.value.sigsUsed| < s.policy.threshold
    case DuplicateInSigsUsed => s.finalization.Some? && !Distinct(s.finalization.value.sigsUsed)
    case UncollectedInSigsUsed =>
      s.finalization.Some? && exists fp :: fp in s.finalization.value.sigsUsed && !HasSigned(s.signatures, fp)
  }

  /** The policy and duplicate checks shared by proposal and hydration. */
  method AllDistinct(fps: seq<Fingerprint>) returns (distinct: bool)
    ensures distinct <==> Distinct(fps)
  {
    FingerprintOrder();
    SortDedupDecidesDistinct(fps, FingerprintLe);
    distinct := |Dedup(Sort(fps, FingerprintLe))| == |fps|;
  }

  method VerifySignatures(s: Session) returns (v: Option<Violation>)
    ensures v.None? <==> ValidSignatures(s.policy, s.signatures)
    ensures v.Some? ==> Explains(v.value, s)
  {
    var seen: set<Fingerprint> := {};
    var i := 0;
    while i < |s.signatures|
      invariant 0 <= i <= |s.signatures|
      invariant forall fp :: fp in seen <==> exists j :: 0 <= j < i && s.signatures[j].fingerprint == fp
      invariant forall j :: 0 <= j < i ==> s.signatures[j].fingerprint in s.policy.keystores
      invariant forall j, k :: 0 <= j < k < i ==> s.signatures[j].fingerprint != s.signatures[k].fingerprint
    {
      var fp := s.signatures[i].fingerprint;
      if fp !in s.policy.keystores { return Some(ForeignSignature(fp)); }
      if fp in seen {
        ghost var j :| 0 <= j < i && s.signatures[j].fingerprint == fp;
        assert Signers(s.signatures)[j] == Signers(s.signatures)[i];
        return Some(DuplicateSignature(fp));
      }
      seen := seen + {fp};
      i := i + 1;
    }
    v := None;
  }

  method VerifyFinalization(s: Session, f: FinalizationRecord) returns (v: Option<Violation>)
    requires s.finalization == Some(f)
    ensures v.None? <==> ValidFinalization(s.policy, s.signatures, f)
    ensures v.Some? ==> Explains(v.value, s)
  {
    if |f.sigsUsed| < s.policy.threshold { return Some(FinalizedBelowThreshold); }
    var distinct := AllDistinct(f.sigsUsed);
    if !distinct { return Some(DuplicateInSigsUsed); }
    var i := 0;
    while i < |f.sigsUsed|
      invariant 0 <= i <= |f.sigsUsed|
      invariant forall j :: 0 <= j < i ==> HasSigned(s.signatures, f.sigsUsed[j])
    {
      if !HasSigned(s.signatures, f.sigsUsed[i]) {
        assert f.sigsUsed[i] in f.sigsUsed;
        return Some(UncollectedInSigsUsed);
      }
      i := i + 1;
    }
    v := None;
  }

  /** Re-assert the construction invariants on loaded data. */
  method VerifyHydratedInvariants(s: Session) returns (v: Option<Violation>)
    ensures v.None? <==> Invariants(s)
    ensures v.Some? ==> Explains(v.value, s)
  {
    if s.policy.threshold == 0 || s.policy.threshold > |s.policy.keystores| { return Some(ThresholdOutOfRange); }
    var distinct := AllDistinct(s.policy.keystores);
    if !distinct { return Some(DuplicateKeystore); }
    v := VerifySignatures(s);
    if v.Some? { return; }
    match s.finalization {
      case None => v := None;
      case Some(f) => v := VerifyFinalization(s, f);
    }
  }

  /** Load a session from its log: it loads if and only if the log names a
      policy and the replayed entity satisfies the construction invariants, and
      then the object is exactly that entity. */
  method TryFromEvents(es: Log) returns (r: Result<PsbtSession, Violation>)
    ensures r.Success? <==> Replay(es).Some? && Invariants(Replay(es).value)
    ensures r.Success? ==> fresh(r.value) && Replay(es) == Some(r.value.State()) && Hydrated(r.value.State())
    ensures r.Failure? ==> if Replay(es).None? then r.error == MissingPolicy
                           else Explains(r.error, Replay(es).value)
  {
    var policy: Option<Policy> := None;
    var unsignedHash: Option<PsbtHash> := None;
    var signatures: seq<SignatureRecord> := [];
    var finalization: Option<FinalizationRecord> := None;
    var i := 0;
    while i < |es|
      invariant 0 <= i <= |es|
      invariant policy == LatestPolicy(es[..i])
      invariant unsignedHash == LatestUnsignedHash(es[..i])
      invariant signatures == SignaturesIn(es[..i])
      invariant finalization == LatestFinalization(es[..i])
    {
      assert es[..i + 1][..i] == es[..i];
      match es[i] {
        case Initialized(p) => policy := Some(p);
        case PsbtCreated(hash) => unsignedHash := Some(hash);
        case SignatureAdded(fp, hash) => signatures := signatures + [SignatureRecord(fp, hash)];
        case Finalized(record) => finalization := Some(record);
        case _ =>
      }
      i := i + 1;
    }
    assert es[..i] == es;
    match policy {
      case None => r := Failure(MissingPolicy);
      case Some(p) =>
        var s := Session(p, unsignedHash, signatures, finalization, es);
        var v := VerifyHydratedInvariants(s);
        match v {
          case Some(violation) => r := Failure(violation);
          case None =>
            var entity := new PsbtSession(s);
            r := Success(entity);
        }
    }
  }
}
