/** What each session command answers and appends, exactly, read off the log by
    the positions of its events: for every session, reachable or not. */
module SessionAnswers {
  import opened Foundation
  import opened Documents
  import opened Sorting
  import opened SessionModel
  import opened SessionHistory

  // --- status ---

  /** Events that leave the status alone. */
  ghost predicate Quiet(e: SessionEvent) { e.Initialized? || e.SignatureAdded? }

  /** The status that goes with the newest event that is not quiet. */
  ghost predicate Says(e: SessionEvent, status: Status) {
    && (e.PsbtCreated? ==> status == Collecting)
    && (e.Finalized? ==> status == FinalizedStatus)
    && (e.BroadcastSeen? ==> status == Broadcast)
    && (e.Confirmed? ==> status == ConfirmedStatus)
    && (e.Invalidated? ==> status == InvalidatedStatus)
    && (e.Cancelled? ==> status == CancelledStatus)
  }

  ghost predicate NewestLoud(es: Log, i: int) {
    0 <= i < |es| && !Quiet(es[i]) && forall j :: i < j < |es| ==> Quiet(es[j])
  }

  lemma {:induction false} StatusMeaning(es: Log)
    ensures StatusOf(es) == Pending <==> forall i :: 0 <= i < |es| ==> Quiet(es[i])
    ensures forall i :: NewestLoud(es, i) ==> Says(es[i], StatusOf(es))
  {
    if es != [] {
      var n := |es| - 1;
      StatusMeaning(es[..n]);
      if Quiet(es[n]) {
        assert forall i :: 0 <= i < n ==> es[..n][i] == es[i];
        forall i | NewestLoud(es, i) ensures Says(es[i], StatusOf(es)) {
          assert NewestLoud(es[..n], i);
        }
      } else {
        forall i | NewestLoud(es, i) ensures i == n {}
      }
    }
  }

  // --- what the guards look for ---

  ghost predicate Sighted(es: Log) { exists i :: 0 <= i < |es| && es[i].BroadcastSeen? }

  /** A confirmation that no newer invalidation undid. */
  ghost predicate StandsConfirmed(es: Log) {
    exists i :: 0 <= i < |es| && es[i].Confirmed? && forall j :: i < j < |es| ==> !es[j].Invalidated?
  }

  /** An invalidation that no newer confirmation undid. */
  ghost predicate StandsInvalidated(es: Log) {
    exists i :: 0 <= i < |es| && es[i].Invalidated? && forall j :: i < j < |es| ==> !es[j].Confirmed?
  }

  lemma ChainGuardsMean(es: Log)
    ensures AlreadyRecorded(es, AnyBroadcastSeen, NoEvent) <==> Sighted(es)
    ensures AlreadyRecorded(es, AnyConfirmed, AnyInvalidated) <==> StandsConfirmed(es)
    ensures AlreadyRecorded(es, AnyInvalidated, AnyConfirmed) <==> StandsInvalidated(es)
  {
    NoResetMeaning(es, AnyBroadcastSeen);
    GuardMeaning(es, AnyConfirmed, AnyInvalidated);
    GuardMeaning(es, AnyInvalidated, AnyConfirmed);
    if StandsConfirmed(es) {
      var i :| 0 <= i < |es| && es[i].Confirmed? && forall j :: i < j < |es| ==> !es[j].Invalidated?;
      assert Matches(AnyConfirmed, es[i]);
    }
    if StandsInvalidated(es) {
      var i :| 0 <= i < |es| && es[i].Invalidated? && forall j :: i < j < |es| ==> !es[j].Confirmed?;
      assert Matches(AnyInvalidated, es[i]);
    }
    if Sighted(es) {
      var i :| 0 <= i < |es| && es[i].BroadcastSeen?;
      assert Matches(AnyBroadcastSeen, es[i]);
    }
  }

  // --- commands ---

  /** The command appended `e`, or did nothing. */
  ghost predicate Appends(s: Session, t: Session, outcome: Outcome, e: SessionEvent) {
    t == if outcome == Executed then s.(events := s.events + [e]) else s
  }

  /** An observation of a transaction: answered by whether it is the finalized one
      and whether the log makes the observation redundant. */
  ghost predicate AboutTransaction(s: Session, txid: Txid, redundant: bool, outcome: Outcome) {
    outcome == if s.finalization.None? then Failed(NotFinalized)
               else if s.finalization.value.txid != txid then Failed(TxidMismatch)
               else if redundant then AlreadyApplied
               else Executed
  }

  lemma SightingAnswers(s: Session, txid: Txid)
    ensures var (t, outcome) := MarkBroadcastSeen(s, txid);
            && AboutTransaction(s, txid, Sighted(s.events) || StatusOf(s.events) == ConfirmedStatus, outcome)
            && Appends(s, t, outcome, BroadcastSeen(txid))
  {
    ChainGuardsMean(s.events);
  }

  lemma ConfirmationAnswers(s: Session, txid: Txid, height: U64, blockHash: int)
    ensures var (t, outcome) := Confirm(s, txid, height, blockHash);
            && AboutTransaction(s, txid, StandsConfirmed(s.events), outcome)
            && Appends(s, t, outcome, Confirmed(txid, height, blockHash))
  {
    ChainGuardsMean(s.events);
  }

  lemma InvalidationAnswers(s: Session, reason: InvalidationReason)
    ensures var (t, outcome) := Invalidate(s, reason);
            && outcome == (if StandsInvalidated(s.events) then AlreadyApplied
                           else if StatusOf(s.events) in {Broadcast, ConfirmedStatus} then Executed
                           else Failed(CannotInvalidate(StatusOf(s.events))))
            && Appends(s, t, outcome, Invalidated(reason))
  {
    ChainGuardsMean(s.events);
  }

  lemma CancellationAnswers(s: Session, user: UserId, why: string)
    ensures var (t, outcome) := Cancel(s, user, why);
            && outcome == (if exists i :: 0 <= i < |s.events| && s.events[i].Cancelled? then AlreadyApplied
                           else if StatusOf(s.events) in {Pending, Collecting, FinalizedStatus} then Executed
                           else Failed(CannotCancel(StatusOf(s.events))))
            && Appends(s, t, outcome, Cancelled(user, why))
  {
    NoResetMeaning(s.events, AnyCancelled);
    if i :| 0 <= i < |s.events| && s.events[i].Cancelled? { assert Matches(AnyCancelled, s.events[i]); }
  }

  lemma CreationAnswers(s: Session, hash: PsbtHash)
    ensures var (t, outcome) := RecordPsbtCreated(s, hash);
            && outcome == (if exists i :: 0 <= i < |s.events| && s.events[i].PsbtCreated? then AlreadyApplied
                           else if StatusOf(s.events) == Pending then Executed
                           else Failed(CannotAttachPsbt(StatusOf(s.events))))
            && t == if outcome == Executed
                    then s.(unsignedHash := Some(hash), events := s.events + [PsbtCreated(hash)]) else s
  {
    NoResetMeaning(s.events, AnyPsbtCreated);
    if i :| 0 <= i < |s.events| && s.events[i].PsbtCreated? { assert Matches(AnyPsbtCreated, s.events[i]); }
  }

  ghost predicate SignedBy(es: Log, fp: Fingerprint) {
    exists i :: 0 <= i < |es| && es[i].SignatureAdded? && es[i].fingerprint == fp
  }

  lemma SignatureAnswers(s: Session, fp: Fingerprint, hash: PsbtHash)
    ensures var (t, outcome) := AddSignature(s, fp, hash);
            && outcome == (if SignedBy(s.events, fp) then AlreadyApplied
                           else if StatusOf(s.events) != Collecting then Failed(NotCollecting)
                           else if fp !in s.policy.keystores then Failed(UnknownKeystore(fp))
                           else Executed)
            && t == if outcome == Executed
                    then s.(signatures := s.signatures + [SignatureRecord(fp, hash)],
                            events := s.events + [SignatureAdded(fp, hash)]) else s
  {
    NoResetMeaning(s.events, SignatureBy(fp));
    if SignedBy(s.events, fp) {
      var i :| 0 <= i < |s.events| && s.events[i].SignatureAdded? && s.events[i].fingerprint == fp;
      assert Matches(SignatureBy(fp), s.events[i]);
    }
  }

  /** The same signers, each once, ascending as numbers. */
  ghost predicate Ascending(used: seq<Fingerprint>, recorded: seq<Fingerprint>) {
    multiset(recorded) == multiset(used) && forall i, j :: 0 <= i < j < |recorded| ==> recorded[i] < recorded[j]
  }

  lemma FinalizationAnswers(s: Session, txid: Txid, hash: PsbtHash, used: seq<Fingerprint>)
    ensures var (t, outcome) := Finalize(s, txid, hash, used);
            && outcome == (if exists i :: 0 <= i < |s.events| && s.events[i].Finalized? then AlreadyApplied
                           else if StatusOf(s.events) != Collecting then Failed(NotCollecting)
                           else if |used| < s.policy.threshold then Failed(ThresholdNotMet(|used|, s.policy.threshold))
                           else if !Distinct(used) then Failed(DuplicateSigsUsed)
                           else if exists fp :: fp in used && !HasSigned(s.signatures, fp) then
                             Failed(SigsUsedNotCollected)
                           else Executed)
            && (outcome != Executed ==> t == s)
            && (outcome == Executed ==>
                  exists recorded ::
                    var record := FinalizationRecord(txid, hash, recorded);
                    && Ascending(used, recorded)
                    && t == s.(finalization := Some(record), events := s.events + [Finalized(record)]))
  {
    NoResetMeaning(s.events, AnyFinalized);
    if i :| 0 <= i < |s.events| && s.events[i].Finalized? { assert Matches(AnyFinalized, s.events[i]); }
    FinalizeExecutesIff(s, txid, hash, used);
    FingerprintOrder();
    SortSorts(used, FingerprintLe);
    SortDedupDecidesDistinct(used, FingerprintLe);
    SameElements(Sort(used, FingerprintLe), used);
    if Finalize(s, txid, hash, used).1 == Executed { RecordedAscend(s, txid, hash, used); }
  }

  lemma RecordedAscend(s: Session, txid: Txid, hash: PsbtHash, used: seq<Fingerprint>)
    requires Finalize(s, txid, hash, used).1 == Executed
    ensures Ascending(used, Sort(used, FingerprintLe))
  {
    FinalizeRecords(s, txid, hash, used);
    FinalizeExecutesIff(s, txid, hash, used);
    DistinctPermutes(used, Sort(used, FingerprintLe));
  }
}
