/** The finalization job: combine the recorded signers' documents in recording
    order until the transaction finalizes. */
module Finalization {
  import opened Foundation
  import opened Documents
  import opened Storage
  import opened Combination
  import opened SessionModel
  import opened SessionHistory
  import opened SessionEntity

  datatype LoadError = FetchFailed(error: BlobFetchError) | NotAPsbt

  function LoadPsbt(blobs: Blobs, hash: PsbtHash): Result<Psbt, LoadError> {
    match Fetch(blobs, hash)
    case Failure(e) => Failure(FetchFailed(e))
    case Success(b) => if b.PsbtBlob? then Success(b.psbt) else Failure(NotAPsbt)
  }

  /** A blob loads as a document if it is there, digests to its address and is one,
      and otherwise the first of the three that fails is named. */
  lemma LoadMeaning(blobs: Blobs, hash: PsbtHash)
    ensures forall p ::
              LoadPsbt(blobs, hash) == Success(p)
              <==> hash in blobs && blobs[hash] == PsbtBlob(p) && hash == Sha256(blobs[hash])
    ensures LoadPsbt(blobs, hash) == Failure(FetchFailed(Missing(hash))) <==> hash !in blobs
    ensures LoadPsbt(blobs, hash) == Failure(FetchFailed(Corrupted(hash)))
            <==> hash in blobs && hash != Sha256(blobs[hash])
    ensures LoadPsbt(blobs, hash) == Failure(NotAPsbt)
            <==> hash in blobs && hash == Sha256(blobs[hash]) && !blobs[hash].PsbtBlob?
  {
    FetchMeaning(blobs, hash);
  }

  /** Does the input hold a usable signature for the script key? Segwit scripts
      hold compressed keys, so only signatures filed under that form count. */
  predicate Signs(m: InputMap, k: Point) { PublicKey(true, k) in m.partialSigs }

  /** The places of the script an input has a usable signature for. A key that
      occurs twice takes two places and one signature fills both. */
  function SignedSlots(m: InputMap, ws: MultisigScript): set<Slot> {
    set k, j | k in ws.keys && 0 <= j < ws.keys[k] && Signs(m, k) :: Slot(k, j)
  }

  predicate InputSatisfied(m: InputMap) {
    m.witnessScript.Some? && |SignedSlots(m, m.witnessScript.value)| >= m.witnessScript.value.threshold
  }

  /** miniscript's `finalize` on a `wsh(sortedmulti)` document. */
  predicate Finalizable(p: Psbt) {
    forall i :: 0 <= i < |p.inputs| ==> InputSatisfied(p.inputs[i])
  }

  datatype Search =
    | Complete(combined: Psbt, used: seq<Fingerprint>)
    | Exhausting
    | Broken(error: SearchError)

  datatype SearchError = Unloadable(load: LoadError) | Unverified

  /** Add signers in recording order until the document finalizes. */
  ghost function SearchPrefix(c: Crypto, blobs: Blobs, unsigned: Psbt, combined: Psbt,
                              records: seq<SignatureRecord>, used: seq<Fingerprint>): Search
    requires |combined.inputs| == |unsigned.inputs|
    decreases |records|
  {
    if records == [] then Exhausting
    else
      match LoadPsbt(blobs, records[0].signedHash)
      case Failure(e) => Broken(Unloadable(e))
      case Success(doc) =>
        if !VerifiesAgainst(c, unsigned, doc) then Broken(Unverified)
        else
          var combined' := CombineWith(combined, doc);
          var used' := used + [records[0].fingerprint];
          if Finalizable(combined') then Complete(combined', used')
          else SearchPrefix(c, blobs, unsigned, combined', records[1..], used')
  }

  /** Whatever the store returned, a completed search ends in a document that
      finalizes and adds only genuine signatures to the unsigned one. */
  lemma {:induction false} SearchIsSafe(c: Crypto, blobs: Blobs, unsigned: Psbt, combined: Psbt,
                                        records: seq<SignatureRecord>, used: seq<Fingerprint>)
    requires SafeDocument(c, unsigned, combined)
    requires SearchPrefix(c, blobs, unsigned, combined, records, used).Complete?
    ensures SafeDocument(c, unsigned, SearchPrefix(c, blobs, unsigned, combined, records, used).combined)
    ensures Finalizable(SearchPrefix(c, blobs, unsigned, combined, records, used).combined)
    decreases |records|
  {
    var doc := LoadPsbt(blobs, records[0].signedHash).value;
    var combined' := CombineWith(combined, doc);
    CombineKeepsSafe(c, unsigned, combined, doc);
    if !Finalizable(combined') {
      SearchIsSafe(c, blobs, unsigned, combined', records[1..], used + [records[0].fingerprint]);
    }
  }

  /** What one run of the job amounts to for a loaded session. */
  datatype Plan =
    | AlreadyFinal(txid: Txid)
    | UnexpectedStatus(status: Status)
    | BelowThreshold
    | Stuck                      // an error: the executor will retry
    | Record(txid: Txid, tx: FinalTx, used: seq<Fingerprint>)

  ghost function PlanFor(c: Crypto, blobs: Blobs, s: Session): Plan {
    if s.finalization.Some? then AlreadyFinal(s.finalization.value.txid)
    else if StatusOf(s.events) != Collecting then UnexpectedStatus(StatusOf(s.events))
    else if !ThresholdMet(s) then BelowThreshold
    else if s.unsignedHash.None? then Stuck
    else
      match LoadPsbt(blobs, s.unsignedHash.value)
      case Failure(_) => Stuck
      case Success(unsigned) =>
        match SearchPrefix(c, blobs, unsigned, unsigned, s.signatures, [])
        case Complete(combined, used) =>
          if c.extract(combined).None? then Stuck
          else Record(c.txid(c.extract(combined).value), c.extract(combined).value, used)
        case _ => Stuck
  }

  /** When there is nothing to combine, in the order the job looks: a recorded
      finalization, a status other than Collecting, too few signatures. */
  lemma PlanAnswers(c: Crypto, blobs: Blobs, s: Session)
    requires Hydrated(s)
    ensures var plan := PlanFor(c, blobs, s);
            && (plan.AlreadyFinal? <==> exists i :: 0 <= i < |s.events| && s.events[i].Finalized?)
            && (plan.AlreadyFinal? ==> s.finalization.Some? && plan.txid == s.finalization.value.txid)
            && (plan.UnexpectedStatus? <==> !plan.AlreadyFinal? && StatusOf(s.events) != Collecting)
            && (plan.UnexpectedStatus? ==> plan.status == StatusOf(s.events))
            && (plan.BelowThreshold? <==>
                !plan.AlreadyFinal? && StatusOf(s.events) == Collecting && |s.signatures| < s.policy.threshold)
            && (plan.Record? ==>
                  plan.txid == c.txid(plan.tx) && exists combined :: c.extract(combined) == Some(plan.tx))
  {
    FinalizedIffRecorded(s.events);
    NoResetMeaning(s.events, AnyFinalized);
    if i :| 0 <= i < |s.events| && s.events[i].Finalized? { assert Matches(AnyFinalized, s.events[i]); }
  }

  method LoadFrom(store: BlobStore, hash: PsbtHash) returns (r: Result<Psbt, LoadError>)
    ensures r == LoadPsbt(store.blobs, hash)
  {
    var fetched := store.FetchVerified(hash);
    match fetched {
      case Failure(e) => r := Failure(FetchFailed(e));
      case Success(b) => r := if b.PsbtBlob? then Success(b.psbt) else Failure(NotAPsbt);
    }
  }

  /** The combine loop. */
  method CombineUntilFinal(c: Crypto, store: BlobStore, unsigned: Psbt, records: seq<SignatureRecord>)
      returns (r: Search)
    ensures r == SearchPrefix(c, store.blobs, unsigned, unsigned, records, [])
    ensures r.Complete? ==> SafeDocument(c, unsigned, r.combined)
  {
    var combined := unsigned;
    var used: seq<Fingerprint> := [];
    var k := 0;
    while k < |records|
      invariant 0 <= k <= |records|
      invariant SafeDocument(c, unsigned, combined)
      invariant SearchPrefix(c, store.blobs, unsigned, unsigned, records, [])
                == SearchPrefix(c, store.blobs, unsigned, combined, records[k..], used)
    {
      var loaded := LoadFrom(store, records[k].signedHash);
      assert records[k..][1..] == records[k + 1..];
      match loaded {
        case Failure(e) => return Broken(Unloadable(e));
        case Success(doc) =>
          var defect := VerifyMergedBlob(c, unsigned, doc);
          if defect.Some? { return Broken(Unverified); }
          CombineKeepsSafe(c, unsigned, combined, doc);
          combined := CombineInto(combined, doc);
          used := used + [records[k].fingerprint];
          if Finalizable(combined) { return Complete(combined, used); }
      }
      k := k + 1;
    }
    r := Exhausting;
  }

  datatype JobResult = Finished(txid: Txid) | NotFinished(plan: Plan) | Refused(outcome: Outcome)

  /** The run up to the transaction: every decision, and nothing stored yet. */
  method MakePlan(c: Crypto, session: PsbtSession, store: BlobStore) returns (plan: Plan)
    requires Hydrated(session.State())
    ensures plan == PlanFor(c, store.blobs, session.State())
  {
    if session.finalization.Some? { return AlreadyFinal(session.finalization.value.txid); }
    var status := session.CurrentStatus();
    if status != Collecting { return UnexpectedStatus(status); }
    if |session.signatures| < session.policy.threshold { return BelowThreshold; }
    CollectingHasPsbt(session.events);
    var unsigned := LoadFrom(store, session.unsignedHash.value);
    if unsigned.Failure? { return Stuck; }
    var found := CombineUntilFinal(c, store, unsigned.value, session.signatures);
    if !found.Complete? { return Stuck; }
    var tx := c.extract(found.combined);
    if tx.None? { return Stuck; }
    plan := Record(c.txid(tx.value), tx.value, found.used);
  }

  /** One run of the job on a freshly loaded session: it stores the transaction
      and records the finalization exactly when the plan says so, and the session
      it leaves behind always loads again. */
  method RunFinalization(c: Crypto, session: PsbtSession, store: BlobStore) returns (r: JobResult)
    requires Hydrated(session.State())
    modifies session, store
    ensures var plan := PlanFor(c, old(store.blobs), old(session.State()));
            match plan
            case Record(txid, tx, used) =>
              && store.blobs == old(store.blobs)[Sha256(TxBlob(tx)) := TxBlob(tx)]
              && (var (t, outcome) := SessionModel.Finalize(old(session.State()), txid, Sha256(TxBlob(tx)), used);
                  session.State() == t && r == if outcome.Failed? then Refused(outcome) else Finished(txid))
            case AlreadyFinal(txid) =>
              session.State() == old(session.State()) && store.blobs == old(store.blobs) && r == Finished(txid)
            case _ =>
              session.State() == old(session.State()) && store.blobs == old(store.blobs) && r == NotFinished(plan)
    ensures Hydrated(session.State())
  {
    var plan := MakePlan(c, session, store);
    match plan {
      case AlreadyFinal(txid) => r := Finished(txid);
      case Record(txid, tx, used) =>
        var hash := store.Put(TxBlob(tx));
        CommandKeepsHydrated(session.State(), DoFinalize(txid, hash, used));
        var outcome := session.Finalize(txid, hash, used);
        r := if outcome.Failed? then Refused(outcome) else Finished(txid);
      case _ => r := NotFinished(plan);
    }
  }
}
