/** The use cases on sessions, from a loaded session on: storing an accepted
    submission, and folding a chain observation into the lifecycle. */
module UseCases {
  import opened Foundation
  import opened Documents
  import opened Storage
  import opened Submission
  import opened SessionModel
  import opened SessionAnswers
  import opened SessionEntity
  import opened Finalization

  datatype SubmitError = NotReady | LoadFailed(load: LoadError) | Invalid(error: ValidationError)

  /** The document signers of the session were given, if it can be loaded. */
  function Original(blobs: Blobs, s: Session): Option<Psbt> {
    if s.unsignedHash.Some? && LoadPsbt(blobs, s.unsignedHash.value).Success? then
      Some(LoadPsbt(blobs, s.unsignedHash.value).value)
    else None
  }

  ghost predicate Storable(c: Crypto, blobs: Blobs, s: Session, signed: Psbt, fp: Fingerprint) {
    Original(blobs, s).Some? && Acceptable(c, Original(blobs, s).value, signed, fp)
  }

  /** `submit_signed_psbt` up to the commit: what is stored is rebuilt from the
      platform's own document and the extracted signatures, and is the submitted
      document exactly; a refused submission leaves no trace. */
  method StoreSubmission(c: Crypto, store: BlobStore, session: PsbtSession, fp: Fingerprint, signed: Psbt)
      returns (r: Result<PsbtHash, SubmitError>)
    modifies store
    ensures r.Success? <==> Storable(c, old(store.blobs), session.State(), signed, fp)
    ensures r.Success? ==> r.value == Sha256(PsbtBlob(signed))
                           && store.blobs == old(store.blobs)[Sha256(PsbtBlob(signed)) := PsbtBlob(signed)]
    ensures r.Failure? ==> store.blobs == old(store.blobs)
    ensures r == Failure(NotReady) <==> session.unsignedHash.None?
    ensures r.Failure? && r.error.LoadFailed? ==>
              session.unsignedHash.Some? && LoadPsbt(store.blobs, session.unsignedHash.value) == Failure(r.error.load)
    ensures r.Failure? && r.error.Invalid? ==>
              && Original(store.blobs, session.State()).Some?
              && Truthful(c, Original(store.blobs, session.State()).value, signed, fp, r.error.error)
  {
    if session.unsignedHash.None? { return Failure(NotReady); }
    var original := LoadFrom(store, session.unsignedHash.value);
    if original.Failure? { return Failure(LoadFailed(original.error)); }
    var extracted := ValidateSignedSubmission(c, original.value, signed, fp);
    if extracted.Failure? { return Failure(Invalid(extracted.error)); }
    AcceptAndRebuild(c, original.value, signed, fp, extracted.value);
    var merged := MergePartialSigs(original.value, extracted.value);
    var hash := store.Put(PsbtBlob(merged));
    r := Success(hash);
  }

  datatype ChainObservation =
    | BroadcastObserved(txid: Txid)
    | ConfirmedObserved(txid: Txid, height: U64, blockHash: int)
    | InvalidatedObserved(reason: InvalidationReason)

  function CommandFor(o: ChainObservation): Command {
    match o
    case BroadcastObserved(txid) => DoMarkBroadcastSeen(txid)
    case ConfirmedObserved(txid, height, blockHash) => DoConfirm(txid, height, blockHash)
    case InvalidatedObserved(reason) => DoInvalidate(reason)
  }

  /** What folding an observation into a session amounts to: the event it appends,
      and exactly when. A sighting counts unless one was ever recorded or the
      session is confirmed, a confirmation unless one stands that no newer
      invalidation undid, an invalidation of a live transaction unless one stands
      that no newer confirmation undid. */
  ghost predicate Folded(s: Session, o: ChainObservation, t: Session, outcome: Outcome) {
    match o
    case BroadcastObserved(txid) =>
      && AboutTransaction(s, txid, Sighted(s.events) || StatusOf(s.events) == ConfirmedStatus, outcome)
      && Appends(s, t, outcome, BroadcastSeen(txid))
    case ConfirmedObserved(txid, height, blockHash) =>
      && AboutTransaction(s, txid, StandsConfirmed(s.events), outcome)
      && Appends(s, t, outcome, Confirmed(txid, height, blockHash))
    case InvalidatedObserved(reason) =>
      && outcome == (if StandsInvalidated(s.events) then AlreadyApplied
                     else if StatusOf(s.events) in {Broadcast, ConfirmedStatus} then Executed
                     else Failed(CannotInvalidate(StatusOf(s.events))))
      && Appends(s, t, outcome, Invalidated(reason))
  }

  lemma ObservationFolds(s: Session, o: ChainObservation)
    ensures Folded(s, o, Apply(s, CommandFor(o)).0, Apply(s, CommandFor(o)).1)
  {
    match o
    case BroadcastObserved(txid) => SightingAnswers(s, txid);
    case ConfirmedObserved(txid, height, blockHash) => ConfirmationAnswers(s, txid, height, blockHash);
    case InvalidatedObserved(reason) => InvalidationAnswers(s, reason);
  }

  /** `persist` tells whether there is anything to store. */
  method ApplyChainObservation(session: PsbtSession, o: ChainObservation) returns (outcome: Outcome, persist: bool)
    modifies session
    ensures Folded(old(session.State()), o, session.State(), outcome)
    ensures persist <==> session.events != old(session.events)
  {
    ObservationFolds(session.State(), o);
    match o {
      case BroadcastObserved(txid) => outcome := session.MarkBroadcastSeen(txid);
      case ConfirmedObserved(txid, height, blockHash) => outcome := session.Confirm(txid, height, blockHash);
      case InvalidatedObserved(reason) => outcome := session.Invalidate(reason);
    }
    persist := outcome == Executed;
  }
}
