/** The PSBT-creation job: build the unsigned PSBT of a proposed spend, or decide
    that it can never be built. */
module Creation {
  import opened Foundation
  import opened Documents
  import opened Descriptors
  import opened Sorting
  import opened Storage
  import opened Submission
  import opened Combination
  import opened Spending
  import opened SpendDocument
  import opened SessionModel
  import opened SessionHistory
  import opened SessionEntity
  import opened Quorum
  import opened Keystores
  import W = WalletModel
  import WH = WalletHistory
  import P = Proposal

  /** What one run of the job amounts to. `Retry` stands for every error the
      executor tries again: no wallet, no funding data, no descriptor, or a build
      failure that later chain data may cure. */
  datatype Plan =
    | AlreadyBuilt(hash: PsbtHash)
    | UnexpectedStatus(status: Status)
    | Retry
    | GiveUp(error: BuildError)
    | Record(psbt: Psbt)

  /** Failures no retry can cure. */
  predicate Permanent(e: BuildError) { e.InvalidAddress? || e.AmountMismatch? }

  function PlanFor(child: Derivation, s: Session, wallet: Option<W.WalletState>, funding: Option<seq<FundingUtxo>>,
                   network: Network): Plan
  {
    if s.unsignedHash.Some? then AlreadyBuilt(s.unsignedHash.value)
    else if StatusOf(s.events) != Pending then UnexpectedStatus(StatusOf(s.events))
    else if wallet.None? || funding.None? || W.DescriptorOf(wallet.value).None? then Retry
    else
      match BuildUnsigned(child, s.policy.spend, W.DescriptorOf(wallet.value).value, funding.value, network)
      case Failure(e) => if Permanent(e) then GiveUp(e) else Retry
      case Success(psbt) => Record(psbt)
  }

  /** When there is nothing to build: the document is recorded already, or the
      session is not pending. Otherwise the build decides, if there is something to
      build from, and only two of its failures end the job. */
  lemma PlanAnswers(child: Derivation, s: Session, wallet: Option<W.WalletState>, funding: Option<seq<FundingUtxo>>,
                    network: Network)
    requires Hydrated(s)
    ensures var plan := PlanFor(child, s, wallet, funding, network);
            && (plan.AlreadyBuilt? ==> PsbtCreated(plan.hash) in s.events)
            && (plan.AlreadyBuilt? <==> exists i :: 0 <= i < |s.events| && s.events[i].PsbtCreated?)
            && (plan.UnexpectedStatus? <==> !plan.AlreadyBuilt? && StatusOf(s.events) != Pending)
            && (plan.UnexpectedStatus? ==> plan.status == StatusOf(s.events))
            && (plan.Record? || plan.GiveUp? ==>
                  wallet.Some? && funding.Some? && W.DescriptorOf(wallet.value).Some?)
            && (wallet.Some? && funding.Some? && W.DescriptorOf(wallet.value).Some? ==>
                  var built := BuildUnsigned(child, s.policy.spend, W.DescriptorOf(wallet.value).value, funding.value,
                                             network);
                  && (plan.Record? ==> built == Success(plan.psbt))
                  && (plan.GiveUp? ==>
                        built == Failure(plan.error) && (plan.error.InvalidAddress? || plan.error.AmountMismatch?))
                  && (plan.Retry? ==>
                        built.Failure? && !built.error.InvalidAddress? && !built.error.AmountMismatch?))
  {
    UnsignedIffRecorded(s.events);
    NoResetMeaning(s.events, AnyPsbtCreated);
    if s.unsignedHash.Some? { UnsignedIsAnEvent(s.events); }
    if i :| 0 <= i < |s.events| && s.events[i].PsbtCreated? { assert Matches(AnyPsbtCreated, s.events[i]); }
  }

  lemma {:induction false} UnsignedIsAnEvent(es: Log)
    requires LatestUnsignedHash(es).Some?
    ensures PsbtCreated(LatestUnsignedHash(es).value) in es
  {
    if !es[|es| - 1].PsbtCreated? { UnsignedIsAnEvent(es[..|es| - 1]); }
  }

  /** One run on a freshly loaded session: the document is stored and recorded
      exactly when the plan says so. */
  method RunPsbtCreation(child: Derivation, session: PsbtSession, store: BlobStore, wallet: Option<W.WalletState>,
                         funding: Option<seq<FundingUtxo>>, network: Network)
      returns (r: Plan, outcome: Outcome)
    requires Hydrated(session.State())
    modifies session, store
    ensures r == PlanFor(child, old(session.State()), wallet, funding, network)
    ensures if r.Record? then
              && store.blobs == old(store.blobs)[Sha256(PsbtBlob(r.psbt)) := PsbtBlob(r.psbt)]
              && (session.State(), outcome)
                 == SessionModel.RecordPsbtCreated(old(session.State()), Sha256(PsbtBlob(r.psbt)))
              && outcome == Executed
            else
              session.State() == old(session.State()) && store.blobs == old(store.blobs) && outcome == AlreadyApplied
    ensures Hydrated(session.State())
  {
    outcome := AlreadyApplied;
    if session.unsignedHash.Some? { return AlreadyBuilt(session.unsignedHash.value), outcome; }
    var status := session.CurrentStatus();
    if status != Pending { return UnexpectedStatus(status), outcome; }
    if wallet.None? || funding.None? { return Retry, outcome; }
    var descriptor := W.DescriptorOf(wallet.value);
    if descriptor.None? { return Retry, outcome; }
    var built := BuildUnsignedPsbt(child, session.policy.spend, descriptor.value, funding.value, network);
    match built {
      case Failure(e) => r := if Permanent(e) then GiveUp(e) else Retry;
      case Success(psbt) =>
        var hash := store.Put(PsbtBlob(psbt));
        PendingIsFresh(session.events);
        CommandKeepsHydrated(session.State(), DoRecordPsbtCreated(hash));
        outcome := session.RecordPsbtCreated(hash);
        r := Record(psbt);
    }
  }

  /** Nothing has been recorded in a pending session. */
  lemma {:induction false} PendingIsFresh(es: Log)
    requires StatusOf(es) == Pending
    ensures LatestUnsignedHash(es).None? && LatestFinalization(es).None?
    ensures !AlreadyRecorded(es, AnyPsbtCreated, NoEvent)
  {
    if es != [] { PendingIsFresh(es[..|es| - 1]); }
  }

  // --- what is built ---

  /** The session was proposed on the wallet, which is active, and passed the
      proposal checks. */
  ghost predicate ProposedOn(p: Policy, w: W.WalletState, network: Network) {
    && WH.Sound(w) && w.policy.network == network
    && P.Proposable(w, p.spend)
    && p == P.SnapshotOf(p.id, w, p.proposedBy, p.spend)
  }

  lemma ActiveWalletKeys(w: W.WalletState)
    requires WH.Sound(w) && W.StatusOf(w.events) == W.Active
    ensures W.DescriptorOf(w).Some? && W.DescriptorOf(w).value.threshold == w.policy.threshold
    ensures FingerprintNamesKey(W.DescriptorOf(w).value.keys)
    ensures forall k :: k in W.DescriptorOf(w).value.keys <==> k in W.KeystoresOf(w)
  {
    WH.ActiveDescriptor(w);
    WH.SortedHasSameKeys(W.KeystoresOf(w));
    SortingKeepsNames(W.KeystoresOf(w));
  }

  lemma ActiveDescriptorOf(w: W.WalletState) returns (d: Descriptor)
    requires WH.Sound(w) && W.StatusOf(w.events) == W.Active
    ensures W.DescriptorOf(w) == Some(d) && forall k :: k in d.keys <==> k in W.KeystoresOf(w)
  {
    ActiveWalletKeys(w);
    d := W.DescriptorOf(w).value;
  }

  lemma SortingKeepsNames(held: seq<Key>)
    requires Distinct(Fingerprints(held))
    ensures FingerprintNamesKey(Sort(held, KeyLe))
  {
    var sorted := Sort(held, KeyLe);
    WH.DistinctKeys(held);
    DistinctFingerprintsName(held);
    KeyOrder();
    SortSorts(held, KeyLe);
    DistinctPermutes(held, sorted);
    WH.SortedHasSameKeys(held);
    NamesPermute(held, sorted);
  }

  lemma NamesPermute(held: seq<Key>, sorted: seq<Key>)
    requires FingerprintNamesKey(held) && Distinct(sorted) && forall k :: k in sorted ==> k in held
    ensures FingerprintNamesKey(sorted)
  {
    forall i, j | 0 <= i < |sorted| && 0 <= j < |sorted|
                  && KeystoreFingerprint(sorted[i]) == KeystoreFingerprint(sorted[j])
      ensures i == j
    {
      assert sorted[i] in held && sorted[j] in held;
      var a :| 0 <= a < |held| && held[a] == sorted[i];
      var b :| 0 <= b < |held| && held[b] == sorted[j];
      assert a == b;
      assert sorted[i] == sorted[j];
    }
  }

  /** The document of the session's spend from the descriptor: its inputs, in
      order, worth the outputs plus the fee, each the script of the descriptor at
      its coin's index; its outputs the destinations and the change. */
  ghost predicate Built(child: Derivation, p: Policy, d: Descriptor, psbt: Psbt) {
    && MultisigSpend(psbt, p.threshold)
    && IsDocument(child, p.spend, d, psbt)
    && |psbt.inputs| == |p.spend.inputs| > 0
    && psbt.unsignedTx.inputs == p.spend.inputs
    && UtxoValue(psbt.inputs) == OutputValue(psbt.unsignedTx.outputs) + p.spend.fee
    && forall i :: 0 <= i < |psbt.inputs| ==> FromDescriptor(child, d, psbt.inputs[i])
  }

  ghost predicate FromDescriptor(child: Derivation, d: Descriptor, o: InputMap) {
    exists utxo :: o == InputFor(child, d, utxo)
  }

  lemma BuiltIsMultisig(child: Derivation, p: Policy, d: Descriptor, psbt: Psbt)
    requires Built(child, p, d, psbt)
    ensures MultisigSpend(psbt, p.threshold) && |psbt.inputs| == |p.spend.inputs| > 0
  {
  }

  /** Cross-aggregate: the wallet's distinct fingerprints make every input of
      what the job builds a multisig in which no two keys answer to one keystore;
      this is what later keeps signers apart. */
  lemma CreationBuildsMultisig(child: Derivation, s: Session, w: W.WalletState, funding: Option<seq<FundingUtxo>>,
                               network: Network)
    requires ProposedOn(s.policy, w, network)
    requires PlanFor(child, s, Some(w), funding, network).Record?
    ensures Built(child, s.policy, W.DescriptorOf(w).value, PlanFor(child, s, Some(w), funding, network).psbt)
  {
    var psbt := PlanFor(child, s, Some(w), funding, network).psbt;
    var d := W.DescriptorOf(w).value;
    ActiveWalletKeys(w);
    ValueConserved(child, s.policy.spend, d, funding.value, network);
    BuildsDocument(child, s.policy.spend, d, funding.value, network);
    forall i | 0 <= i < |psbt.inputs|
      ensures MultisigInput(psbt.inputs[i], s.policy.threshold) && FromDescriptor(child, d, psbt.inputs[i])
    {
      BuiltInput(child, s.policy.spend, d, funding.value, network, i);
      var utxo :| FindFunding(funding.value, s.policy.spend.inputs[i]) == Some(utxo)
                  && Pays(child, d, utxo) && psbt.inputs[i] == InputFor(child, d, utxo);
      BuiltInputIsMultisig(child, d, utxo);
    }
  }

  /** Only the last key of a shared point can sign: everybody else is refused on
      every upload, as their fingerprint is attributed no key. */
  lemma ShadowedIsRefused(c: Crypto, p: Policy, d: Descriptor, unsigned: Psbt, signed: Psbt, fp: Fingerprint,
                          i: nat, utxo: FundingUtxo)
    requires Built(c.child, p, d, unsigned) && Acceptable(c, unsigned, signed, fp)
    requires i < |unsigned.inputs| && unsigned.inputs[i] == InputFor(c.child, d, utxo)
    ensures exists a :: 0 <= a < |d.keys| && KeystoreFingerprint(d.keys[a]) == fp
                        && LastOfPoint(c.child, d.keys, utxo.index, a)
  {
    var k := SignerIsAttributed(c, p, d, unsigned, signed, fp, i);
    var a := SourceOf(c.child, d.keys, utxo.index, k);
  }

  lemma SignerIsAttributed(c: Crypto, p: Policy, d: Descriptor, unsigned: Psbt, signed: Psbt, fp: Fingerprint, i: nat)
      returns (k: Point)
    requires Built(c.child, p, d, unsigned) && Acceptable(c, unsigned, signed, fp) && i < |unsigned.inputs|
    ensures Attributed(unsigned.inputs[i], k, fp)
  {
    assert InputSound(c, unsigned, i, signed.inputs[i], fp) && Added(unsigned.inputs[i], signed.inputs[i]) != {};
    var pk :| pk in Added(unsigned.inputs[i], signed.inputs[i]);
    assert BoundTo(unsigned.inputs[i], pk, fp);
    k := pk.inner;
  }

  /** With distinct points at a coin's index its script keys are there once. */
  lemma DistinctPointsSingleKeys(child: Derivation, d: Descriptor, utxo: FundingUtxo)
    requires FingerprintNamesKey(d.keys) && DistinctPoints(child, d.keys, utxo.index)
    ensures SingleKeys(InputFor(child, d, utxo))
  {
    DistinctPointsGiveOneKey(child, d, utxo);
  }

  /** Some signer's point is another keystore's too. */
  ghost predicate AnySharesPoint(child: Derivation, keys: seq<Key>, index: nat, signers: seq<Fingerprint>) {
    exists k :: 0 <= k < |signers| && SharesPoint(child, keys, index, signers[k])
  }

  /** Accepted signers share a script key at an input exactly when wallet keys of
      theirs share a point at the index of the coin it was built from. */
  lemma SharedAmongIff(c: Crypto, p: Policy, d: Descriptor, unsigned: Psbt, signers: seq<Fingerprint>,
                       docs: seq<Psbt>, i: nat, utxo: FundingUtxo)
    requires Built(c.child, p, d, unsigned) && FingerprintNamesKey(d.keys) && Accepted(c, unsigned, signers, docs)
    requires i < |unsigned.inputs| && unsigned.inputs[i] == InputFor(c.child, d, utxo)
    ensures SharedAmong(unsigned.inputs[i], signers) <==> AnySharesPoint(c.child, d.keys, utxo.index, signers)
  {
    forall k | 0 <= k < |signers|
      ensures Copies(unsigned.inputs[i], signers[k]) >= 2 <==> SharesPoint(c.child, d.keys, utxo.index, signers[k])
    {
      var point := SignerIsAttributed(c, p, d, unsigned, docs[k], signers[k], i);
      CopiesIff(c.child, d, utxo, point, signers[k]);
    }
  }

  /** At every coin of the spend, some signer's point is another keystore's too. */
  ghost predicate AnySharesEverywhere(child: Derivation, d: Descriptor, unsigned: Psbt, signers: seq<Fingerprint>) {
    forall i, utxo :: 0 <= i < |unsigned.inputs| && unsigned.inputs[i] == InputFor(child, d, utxo) ==>
      AnySharesPoint(child, d.keys, utxo.index, signers)
  }

  lemma SharedEverywhereIff(c: Crypto, p: Policy, d: Descriptor, unsigned: Psbt, signers: seq<Fingerprint>,
                            docs: seq<Psbt>)
    requires Built(c.child, p, d, unsigned) && FingerprintNamesKey(d.keys) && Accepted(c, unsigned, signers, docs)
    ensures SharedEverywhere(unsigned, signers) <==> AnySharesEverywhere(c.child, d, unsigned, signers)
  {
    forall i, utxo | 0 <= i < |unsigned.inputs| && unsigned.inputs[i] == InputFor(c.child, d, utxo)
      ensures SharedAmong(unsigned.inputs[i], signers) <==> AnySharesPoint(c.child, d.keys, utxo.index, signers)
    {
      SharedAmongIff(c, p, d, unsigned, signers, docs, i, utxo);
    }
    forall i | 0 <= i < |unsigned.inputs|
      ensures exists utxo :: unsigned.inputs[i] == InputFor(c.child, d, utxo)
    {
      assert FromDescriptor(c.child, d, unsigned.inputs[i]);
    }
  }

  // --- when the job gives up, and when it should have ---

  /** The error reports what the spend pays for, and coins worth something else. */
  predicate Unbalanced(spend: SpendSpec, e: BuildError) {
    e.AmountMismatch? && e.fee == spend.fee && e.outputs + e.fee == IdealOut(spend) && e.inputs != IdealOut(spend)
  }

  ghost predicate Balanced(spend: SpendSpec, funding: seq<FundingUtxo>) {
    IdealIn(spend.inputs, funding) == IdealOut(spend)
  }

  /** What the job makes of a pending proposed session on given coins, exactly: it
      records a document, gives up on unbalanced coins, or retries everything else,
      whether or not a retry can help. */
  lemma CreationOutcomeIff(child: Derivation, s: Session, w: W.WalletState, funding: seq<FundingUtxo>, network: Network)
    requires ProposedOn(s.policy, w, network) && s.unsignedHash.None? && StatusOf(s.events) == Pending
    ensures W.DescriptorOf(w).Some?
    ensures var spend, d := s.policy.spend, W.DescriptorOf(w).value;
            var plan := PlanFor(child, s, Some(w), Some(funding), network);
            var ready := CoinsInRange(spend, d, funding) && Payable(spend, d);
            && (plan.Record? <==> ready && Balanced(spend, funding) && CoinsPay(child, spend, d, funding))
            && (plan.GiveUp? <==> ready && !Balanced(spend, funding))
            && (plan.GiveUp? ==> Unbalanced(spend, plan.error) && plan.error.inputs == IdealIn(spend.inputs, funding))
            && (plan.Record? || plan.GiveUp? || plan.Retry?)
  {
    ActiveWalletKeys(w);
    var spend, d := s.policy.spend, W.DescriptorOf(w).value;
    assert RightNetwork(spend.outputs, network);
    BuildOutcome(child, spend, d, funding, network);
    if CoinsInRange(spend, d, funding) && Payable(spend, d) {
      ArithmeticIsExact(child, spend, d, funding, network);
    }
  }

  /** For a proposed session the job gives up only on an unbalanced spend: the
      wrong-network branch is dead, and the coins were all found and worth
      something other than what the spend pays for. */
  lemma GivesUpOnlyUnbalanced(child: Derivation, s: Session, w: W.WalletState, funding: Option<seq<FundingUtxo>>,
                              network: Network)
    requires ProposedOn(s.policy, w, network)
    requires PlanFor(child, s, Some(w), funding, network).GiveUp?
    ensures Unbalanced(s.policy.spend, PlanFor(child, s, Some(w), funding, network).error)
    ensures PlanFor(child, s, Some(w), funding, network).error.inputs == IdealIn(s.policy.spend.inputs, funding.value)
    ensures W.DescriptorOf(w).Some? && Funded(W.DescriptorOf(w).value, s.policy.spend.inputs, funding.value)
  {
    CreationOutcomeIff(child, s, w, funding.value, network);
  }

  /** No chain data whatever makes the job record a document. */
  ghost predicate NeverRecords(child: Derivation, s: Session, w: W.WalletState, network: Network) {
    forall funding :: !PlanFor(child, s, Some(w), Some(funding), network).Record?
  }

  /** Exact condition: a pending session can never get a PSBT, whatever its coins
      turn out to be, if and only if the wallet has a key that never derives, or
      does not derive the change, or the spend pays for more than 64 bits can hold.
      Neither activation nor the proposal checks any of them. */
  lemma NeverRecordsIff(child: Derivation, s: Session, w: W.WalletState, network: Network)
    requires ProposedOn(s.policy, w, network) && s.unsignedHash.None? && StatusOf(s.events) == Pending
    ensures W.DescriptorOf(w).Some?
    ensures NeverRecords(child, s, w, network) <==> Unbuildable(s.policy.spend, W.DescriptorOf(w).value)
  {
    ActiveWalletKeys(w);
    if Unbuildable(s.policy.spend, W.DescriptorOf(w).value) {
      forall funding ensures !PlanFor(child, s, Some(w), Some(funding), network).Record? {
        UnbuildableRetriesForEver(child, s, w, Some(funding), network);
      }
    } else {
      assert RightNetwork(s.policy.spend.outputs, network);
      var funding := SuitableCoins(child, s.policy.spend, W.DescriptorOf(w).value, network);
      assert PlanFor(child, s, Some(w), Some(funding), network).Record?;
    }
  }

  /** On exactly those sessions the job never gives up: it is retried for ever. */
  lemma UnbuildableRetriesForEver(child: Derivation, s: Session, w: W.WalletState, funding: Option<seq<FundingUtxo>>,
                                  network: Network)
    requires ProposedOn(s.policy, w, network) && s.unsignedHash.None? && StatusOf(s.events) == Pending
    requires W.DescriptorOf(w).Some? && Unbuildable(s.policy.spend, W.DescriptorOf(w).value)
    ensures PlanFor(child, s, Some(w), funding, network) == Retry
  {
    if funding.Some? {
      CreationOutcomeIff(child, s, w, funding.value, network);
      if NeverDerives(W.DescriptorOf(w).value) {
        NeverFunded(W.DescriptorOf(w).value, s.policy.spend.inputs, funding.value);
      }
    }
  }
}
