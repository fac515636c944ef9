/** Where the platform falls short of what it is meant to do: concrete wallets,
    spends and sessions, made by its own commands, for each exact condition that
    excludes something. */
module Limits {
  import opened Foundation
  import opened Documents
  import opened Descriptors
  import opened Sorting
  import opened Storage
  import opened Submission
  import opened Combination
  import opened Spending
  import opened SessionModel
  import opened SessionHistory
  import opened Quorum
  import opened Keystores
  import opened SystemSafety
  import opened SystemProgress
  import C = Creation
  import F = Finalization
  import P = Proposal
  import R = Registry
  import W = WalletModel
  import WH = WalletHistory

  // --- wallets that collect given keys ---

  function Adds(users: seq<UserId>, keys: seq<Key>): (r: seq<W.WalletCommand>)
    requires |users| == |keys|
    ensures |r| == |keys|
  {
    seq(|keys|, i requires 0 <= i < |keys| => W.DoAddKeystore(keys[i], users[i]))
  }

  function FirstHeld(users: seq<UserId>, keys: seq<Key>, n: nat): (r: seq<W.Submission>)
    requires n <= |users| == |keys|
    ensures |r| == n && W.Keys(r) == keys[..n] && W.Users(r) == users[..n]
  {
    seq(n, i requires 0 <= i < n => W.Submission(users[i], keys[i]))
  }

  ghost predicate Acceptance(p: W.WalletPolicy, keys: seq<Key>) {
    && W.ValidWalletPolicy(p) && |p.participants| < U32_LIMIT && |keys| == |p.participants|
    && Distinct(Fingerprints(keys))
  }

  /** What the wallet holds after the first `n` participants submitted. */
  ghost predicate Collected(p: W.WalletPolicy, keys: seq<Key>, n: nat, w: W.WalletState)
    requires n <= |keys| == |p.participants|
  {
    && w.policy == p && WH.Sound(w)
    && W.Submissions(w.events) == FirstHeld(p.participants, keys, n)
  }

  lemma NextIsNew(p: W.WalletPolicy, keys: seq<Key>, n: nat)
    requires Acceptance(p, keys) && n < |keys|
    ensures p.participants[n] !in p.participants[..n]
    ensures KeystoreFingerprint(keys[n]) !in Fingerprints(keys[..n])
  {
    var fps := Fingerprints(keys);
    forall i | 0 <= i < n ensures Fingerprints(keys[..n])[i] != KeystoreFingerprint(keys[n]) {
      assert fps[i] != fps[n];
    }
  }

  /** The next submission is taken; the last one activates the wallet if the keys
      form a descriptor. */
  lemma NextSubmission(p: W.WalletPolicy, keys: seq<Key>, n: nat, w: W.WalletState)
    requires Acceptance(p, keys) && n < |keys| && Collected(p, keys, n, w)
    requires W.StatusOf(w.events) == W.CollectingKeystores && SortedMulti(p.threshold, keys).Success?
    ensures var t := W.AddKeystore(w, keys[n], p.participants[n]).0;
            && Collected(p, keys, n + 1, t)
            && W.StatusOf(t.events) == if n + 1 == |keys| then W.Active else W.CollectingKeystores
  {
    NextIsTaken(p, keys, n, w);
    WH.AfterSubmission(w, keys[n], p.participants[n]);
    WH.CompletesExactly(n, |keys|);
    WH.CommandKeepsSound(w, W.DoAddKeystore(keys[n], p.participants[n]));
    HeldSnoc(p.participants, keys, n);
  }

  lemma HeldSnoc(users: seq<UserId>, keys: seq<Key>, n: nat)
    requires n < |users| == |keys|
    ensures FirstHeld(users, keys, n) + [W.Submission(users[n], keys[n])] == FirstHeld(users, keys, n + 1)
  {
  }

  lemma NextIsTaken(p: W.WalletPolicy, keys: seq<Key>, n: nat, w: W.WalletState)
    requires Acceptance(p, keys) && n < |keys| && Collected(p, keys, n, w)
    requires W.StatusOf(w.events) == W.CollectingKeystores && SortedMulti(p.threshold, keys).Success?
    ensures W.AddKeystore(w, keys[n], p.participants[n]).1.Executed?
  {
    var user := p.participants[n];
    NextIsNew(p, keys, n);
    WH.SubmittedIffUser(W.Submissions(w.events), user);
    if n + 1 == |keys| { assert keys[..n] + [keys[n]] == keys; }
    WH.SubmissionTakesEffectIff(w, keys[n], user, user);
  }

  lemma {:induction false} FirstSubmissions(p: W.WalletPolicy, keys: seq<Key>, n: nat)
    requires Acceptance(p, keys) && n <= |keys| && SortedMulti(p.threshold, keys).Success?
    ensures var w := W.Run(W.New(p), Adds(p.participants, keys)[..n]);
            && Collected(p, keys, n, w)
            && W.StatusOf(w.events) == if n == |keys| then W.Active else W.CollectingKeystores
  {
    if n == 0 {
      NothingCollected(p, keys);
      assert Adds(p.participants, keys)[..0] == [];
    } else {
      FirstSubmissions(p, keys, n - 1);
      AddsSnoc(p, keys, n - 1);
      NextSubmission(p, keys, n - 1, W.Run(W.New(p), Adds(p.participants, keys)[..n - 1]));
    }
  }

  lemma NothingCollected(p: W.WalletPolicy, keys: seq<Key>)
    requires Acceptance(p, keys)
    ensures Collected(p, keys, 0, W.New(p)) && W.StatusOf(W.New(p).events) == W.CollectingKeystores
  {
    WH.NewIsSound(p);
    WH.EventSnoc([], W.Registered(p));
    assert [] + [W.Registered(p)] == W.New(p).events;
  }

  lemma AddsSnoc(p: W.WalletPolicy, keys: seq<Key>, n: nat)
    requires n < |keys| == |p.participants|
    ensures W.Run(W.New(p), Adds(p.participants, keys)[..n + 1])
            == W.AddKeystore(W.Run(W.New(p), Adds(p.participants, keys)[..n]), keys[n], p.participants[n]).0
  {
    var cs := Adds(p.participants, keys);
    assert cs[..n + 1] == cs[..n] + [cs[n]];
    R.RunSnoc(W.New(p), cs[..n], cs[n]);
  }

  /** Every valid policy whose participants submit keys with distinct fingerprints
      that form a descriptor becomes an active wallet of that descriptor. */
  lemma CollectingActivates(p: W.WalletPolicy, keys: seq<Key>) returns (w: W.WalletState)
    requires Acceptance(p, keys) && SortedMulti(p.threshold, keys).Success?
    ensures w == W.Run(W.New(p), Adds(p.participants, keys))
    ensures WH.Sound(w) && w.policy == p && W.StatusOf(w.events) == W.Active && W.KeystoresOf(w) == keys
    ensures W.DescriptorOf(w) == Some(SortedMulti(p.threshold, keys).value)
  {
    var cs := Adds(p.participants, keys);
    assert cs[..|keys|] == cs && keys[..|keys|] == keys;
    FirstSubmissions(p, keys, |keys|);
    w := W.Run(W.New(p), cs);
    WH.ActiveDescriptor(w);
  }

  // --- the wallet of one key ---

  function LoneKey(body: KeyBody): seq<Key> { [Key(Some(1), body, "a", true)] }

  lemma LoneKeySorts(body: KeyBody)
    ensures SortedMulti(1, LoneKey(body)) == Success(Descriptor(1, LoneKey(body)))
    ensures Distinct(Fingerprints(LoneKey(body)))
  {
    var keys := LoneKey(body);
    assert keys[1..] == [] && Sort(keys[1..], KeyLe) == [];
    assert Sort(keys, KeyLe) == keys;
  }

  lemma LoneKeyWallet(network: Network, body: KeyBody) returns (w: W.WalletState)
    ensures exists cs: seq<W.WalletCommand> :: w == W.Run(W.New(W.WalletPolicy(0, network, 1, [1])), cs)
    ensures WH.Sound(w) && w.policy.network == network && w.policy.threshold == 1
    ensures W.StatusOf(w.events) == W.Active && W.KeystoresOf(w) == LoneKey(body)
    ensures W.DescriptorOf(w) == Some(Descriptor(1, LoneKey(body)))
    ensures Fingerprints(W.KeystoresOf(w)) == [1]
  {
    LoneKeySorts(body);
    w := CollectingActivates(W.WalletPolicy(0, network, 1, [1]), LoneKey(body));
    assert Fingerprints(LoneKey(body))[0] == 1;
  }

  lemma LoneKeyDerives(child: Derivation, body: KeyBody)
    ensures NeverDerives(Descriptor(1, LoneKey(body))) <==> body.path.Indefinite?
    ensures forall index :: DistinctPoints(child, LoneKey(body), index)
  {
    assert LoneKey(body)[0].body == body;
    forall index ensures DistinctPoints(child, LoneKey(body), index) {
      assert forall x :: x in LoneKey(body) ==> x == LoneKey(body)[0];
    }
  }

  // --- spends that are accepted and never built ---

  /** A spend of one coin that pays one coin's worth. */
  function OneCoin(network: Network): SpendSpec {
    SpendSpec([OutPoint(0, 0)], [SpendOutput(Address({network}, OtherScript(0), 0), 1)], 0, None)
  }

  function PaymentTo(outpoint: OutPoint, outputs: seq<SpendOutput>, change: Option<ChangeOutput>): SpendSpec {
    SpendSpec([outpoint], outputs, 0, change)
  }

  /** On every active wallet that has a key with a wildcard, a proposal with a
      hardened change index is accepted, and its job is retried for ever, whatever
      its coins. */
  lemma HardenedChangeRetriesForEver(child: Derivation, w: W.WalletState, id: SessionId, user: UserId,
                                     outpoint: OutPoint, script: int)
      returns (spend: SpendSpec)
    requires WH.Sound(w) && W.StatusOf(w.events) == W.Active
    requires exists key :: key in W.KeystoresOf(w) && !key.body.path.Fixed?
    ensures P.Proposable(w, spend) && spend.change.Some? && spend.change.value.index == HARDENED
    ensures RetriedOnAll(child, w, id, user, spend)
  {
    var address := Address({w.policy.network}, OtherScript(script), 0);
    spend := PaymentTo(outpoint, [SpendOutput(address, 1)], Some(ChangeOutput(P.P2WSH_DUST, HARDENED)));
    var d := C.ActiveDescriptorOf(w);
    var key :| key in W.KeystoresOf(w) && !key.body.path.Fixed?;
    var i :| 0 <= i < |d.keys| && d.keys[i] == key;
    DefiniteIff(d, HARDENED);
    RetriedForEver(child, w, id, user, spend);
  }

  /** So is one that pays out more than 64 bits hold. */
  lemma OversizedOutputsRetryForEver(child: Derivation, w: W.WalletState, id: SessionId, user: UserId,
                                     outpoint: OutPoint, script: int)
      returns (spend: SpendSpec)
    requires WH.Sound(w) && W.StatusOf(w.events) == W.Active
    ensures P.Proposable(w, spend) && spend.change.None? && IdealOut(spend) == U64_LIMIT
    ensures RetriedOnAll(child, w, id, user, spend)
  {
    var half := SpendOutput(Address({w.policy.network}, OtherScript(script), 0), U64_LIMIT / 2);
    spend := PaymentTo(outpoint, [half, half], None);
    assert spend.outputs[..1] == [half] && spend.outputs[..1][..0] == [];
    assert IdealSum([half]) == half.amount by { assert [half][..0] == []; }
    assert IdealSum(spend.outputs) == U64_LIMIT;
    var d := C.ActiveDescriptorOf(w);
    RetriedForEver(child, w, id, user, spend);
  }

  /** On all chain data the job of a session with this spend is to be run again. */
  ghost predicate RetriedOnAll(child: Derivation, w: W.WalletState, id: SessionId, user: UserId, spend: SpendSpec) {
    forall funding ::
      C.PlanFor(child, Proposed(P.SnapshotOf(id, w, user, spend)), Some(w), funding, w.policy.network) == C.Retry
  }

  lemma RetriedForEver(child: Derivation, w: W.WalletState, id: SessionId, user: UserId, spend: SpendSpec)
    requires WH.Sound(w) && P.Proposable(w, spend)
    requires W.DescriptorOf(w).Some? && Unbuildable(spend, W.DescriptorOf(w).value)
    ensures RetriedOnAll(child, w, id, user, spend)
  {
    var s := Proposed(P.SnapshotOf(id, w, user, spend));
    NewIsPending(s.policy);
    forall funding ensures C.PlanFor(child, s, Some(w), funding, w.policy.network) == C.Retry {
      C.UnbuildableRetriesForEver(child, s, w, funding, w.policy.network);
    }
  }

  /** A wallet one of whose keys turns into one key at no index, as a multi-path key
      does, activates, and every proposal on it is retried for ever. */
  lemma IndefiniteKeyRetriesForEver(child: Derivation, network: Network, body: KeyBody) returns (w: W.WalletState)
    requires body.path.Indefinite?
    ensures exists cs: seq<W.WalletCommand> :: w == W.Run(W.New(W.WalletPolicy(0, network, 1, [1])), cs)
    ensures W.StatusOf(w.events) == W.Active && P.Proposable(w, OneCoin(network))
    ensures forall id, user, spend :: P.Proposable(w, spend) ==> RetriedOnAll(child, w, id, user, spend)
  {
    w := LoneKeyWallet(network, body);
    assert OneCoin(network).outputs[..0] == [] && Distinct(OneCoin(network).inputs);
    LoneKeyDerives(child, body);
    forall id, user, spend | P.Proposable(w, spend) ensures RetriedOnAll(child, w, id, user, spend) {
      RetriedForEver(child, w, id, user, spend);
    }
  }

  lemma NewIsPending(p: Policy)
    ensures StatusOf(Proposed(p).events) == Pending
  {
    assert Proposed(p).events[..0] == [];
    assert StatusScan([]) == None;
  }

  // --- one-coin spends and their signers ---

  /** Every message can be computed and every key can sign it. */
  ghost predicate CanSign(c: Crypto) {
    && (forall psbt, i :: c.sighash(psbt, i).Some?)
    && (forall message, point :: Signable(c, message, point))
  }

  ghost predicate Signable(c: Crypto, message: int, point: Point) {
    exists bytes :: c.verifies(message, bytes, point)
  }

  lemma OneCoinBuilds(child: Derivation, w: W.WalletState, id: SessionId, user: UserId)
      returns (psbt: Psbt, funding: seq<FundingUtxo>)
    requires WH.Sound(w) && W.StatusOf(w.events) == W.Active
    requires W.DescriptorOf(w).Some? && !NeverDerives(W.DescriptorOf(w).value)
    ensures P.Proposable(w, OneCoin(w.policy.network))
    ensures var p := P.SnapshotOf(id, w, user, OneCoin(w.policy.network));
            && ValidPolicy(p) && StatusOf(Proposed(p).events) == Pending
            && C.PlanFor(child, Proposed(p), Some(w), Some(funding), w.policy.network) == C.Record(psbt)
            && C.Built(child, p, W.DescriptorOf(w).value, psbt) && |psbt.inputs| == 1
  {
    var spend := OneCoin(w.policy.network);
    var p := P.SnapshotOf(id, w, user, spend);
    P.SnapshotIsValid(id, w, user, spend);
    NewIsPending(p);
    assert spend.outputs[..0] == [] && IdealSum(spend.outputs) == 1;
    funding := SuitableCoins(child, spend, W.DescriptorOf(w).value, w.policy.network);
    psbt := C.PlanFor(child, Proposed(p), Some(w), Some(funding), w.policy.network).psbt;
    C.CreationBuildsMultisig(child, Proposed(p), w, Some(funding), w.policy.network);
  }

  /** The signer files a signature of the only input under a form of their key. */
  lemma SignsOneCoin(c: Crypto, unsigned: Psbt, threshold: nat, k: Point, fp: Fingerprint, compressed: bool)
      returns (signed: Psbt)
    requires CanSign(c) && |unsigned.inputs| == 1 && MultisigSpend(unsigned, threshold)
    requires Attributed(unsigned.inputs[0], k, fp)
    ensures Acceptable(c, unsigned, signed, fp) && |signed.inputs| == 1
    ensures signed.inputs[0].partialSigs.Keys == {PublicKey(compressed, k)}
  {
    var o := unsigned.inputs[0];
    assert MultisigInput(o, threshold);
    var message := c.sighash(unsigned, 0).value;
    assert Signable(c, message, k);
    var bytes :| c.verifies(message, bytes, k);
    var pk := PublicKey(compressed, k);
    var s := o.(partialSigs := map[pk := Signature(bytes, SIGHASH_ALL)]);
    signed := unsigned.(inputs := [s]);
    assert Added(o, s) == {pk};
    assert InputSound(c, unsigned, 0, s, fp);
  }

  /** Signatures recorded one after the other on a session that just opened. */
  lemma SessionOf(p: Policy, hash: PsbtHash, records: seq<SignatureRecord>) returns (s: Session)
    requires ValidPolicy(p) && Distinct(Signers(records)) && StatusOf(Proposed(p).events) == Pending
    requires forall k :: 0 <= k < |records| ==> records[k].fingerprint in p.keystores
    ensures exists cs: seq<Command> :: s == Run(Proposed(p), cs)
    ensures Hydrated(s) && s.policy == p && s.unsignedHash == Some(hash) && s.signatures == records
    ensures s.finalization.None? && StatusOf(s.events) == Collecting
    decreases |records|
  {
    if records == [] {
      ProposedIsHydrated(p);
      C.PendingIsFresh(Proposed(p).events);
      s := RecordPsbtCreated(Proposed(p), hash).0;
      CommandKeepsHydrated(Proposed(p), DoRecordPsbtCreated(hash));
      assert [DoRecordPsbtCreated(hash)][1..] == [];
      assert s == Run(Proposed(p), [DoRecordPsbtCreated(hash)]);
    } else {
      var n := |records| - 1;
      assert Signers(records)[..n] == Signers(records[..n]);
      var before := SessionOf(p, hash, records[..n]);
      LastSigner(Signers(records), n);
      s := OneMore(before, records[n]);
      var cs: seq<Command> :| before == Run(Proposed(p), cs);
      RunSnoc(Proposed(p), cs, DoAddSignature(records[n].fingerprint, records[n].signedHash));
      assert s == Run(Proposed(p), cs + [DoAddSignature(records[n].fingerprint, records[n].signedHash)]);
      assert records[..n] + [records[n]] == records;
    }
  }

  lemma OneMore(before: Session, r: SignatureRecord) returns (s: Session)
    requires Hydrated(before) && StatusOf(before.events) == Collecting
    requires r.fingerprint in before.policy.keystores && r.fingerprint !in Signers(before.signatures)
    ensures s == AddSignature(before, r.fingerprint, r.signedHash).0
    ensures Hydrated(s) && s.policy == before.policy && s.unsignedHash == before.unsignedHash
    ensures s.signatures == before.signatures + [r] && s.finalization == before.finalization
    ensures StatusOf(s.events) == Collecting
  {
    SignedIffRecorded(before.events, r.fingerprint);
    SignedIffSigner(before.signatures, r.fingerprint);
    s := AddSignature(before, r.fingerprint, r.signedHash).0;
    CommandKeepsHydrated(before, DoAddSignature(r.fingerprint, r.signedHash));
    StillCollecting(before, r);
  }

  lemma StillCollecting(s: Session, r: SignatureRecord)
    requires StatusOf(s.events) == Collecting
    ensures StatusOf(s.events + [SignatureAdded(r.fingerprint, r.signedHash)]) == Collecting
  {
    assert (s.events + [SignatureAdded(r.fingerprint, r.signedHash)])[..|s.events|] == s.events;
  }

  /** The store after the documents were uploaded. */
  function Uploaded(docs: seq<Psbt>): (r: Blobs)
    ensures forall k :: 0 <= k < |docs| ==> F.LoadPsbt(r, Sha256(PsbtBlob(docs[k]))) == Success(docs[k])
  {
    if docs == [] then map[]
    else Uploaded(docs[..|docs| - 1])[Sha256(PsbtBlob(docs[|docs| - 1])) := PsbtBlob(docs[|docs| - 1])]
  }

  /** Accepted documents, uploaded and recorded, make a session that is due. */
  lemma DueSession(c: Crypto, p: Policy, d: Descriptor, unsigned: Psbt, signers: seq<Fingerprint>, docs: seq<Psbt>)
      returns (x: Facts, s: Session)
    requires ValidPolicy(p) && StatusOf(Proposed(p).events) == Pending && C.Built(c.child, p, d, unsigned)
    requires Accepted(c, unsigned, signers, docs) && SameInputs(unsigned, docs) && p.threshold <= |docs|
    requires forall k :: 0 <= k < |signers| ==> signers[k] in p.keystores
    ensures x.crypto == c && x.policy == p && x.descriptor == d
    ensures s.policy == p && (exists cs: seq<Command> :: s == Run(Proposed(p), cs))
    ensures Due(x, s, unsigned) && Signers(s.signatures) == signers && DocsOf(x.blobs, s.signatures) == docs
  {
    var records := Recorded(signers, docs);
    s := SessionOf(p, Sha256(PsbtBlob(unsigned)), records);
    x := Facts(c, Uploaded([unsigned] + docs), p, d);
    UploadedLoad(unsigned, signers, docs);
  }

  function Recorded(signers: seq<Fingerprint>, docs: seq<Psbt>): (r: seq<SignatureRecord>)
    requires |signers| == |docs|
    ensures |r| == |docs| && Signers(r) == signers
  {
    seq(|docs|, k requires 0 <= k < |docs| => SignatureRecord(signers[k], Sha256(PsbtBlob(docs[k]))))
  }

  lemma UploadedLoad(unsigned: Psbt, signers: seq<Fingerprint>, docs: seq<Psbt>)
    requires |signers| == |docs|
    ensures var blobs, records := Uploaded([unsigned] + docs), Recorded(signers, docs);
            && F.LoadPsbt(blobs, Sha256(PsbtBlob(unsigned))) == Success(unsigned)
            && AllLoad(blobs, records) && DocsOf(blobs, records) == docs
  {
    var all := [unsigned] + docs;
    var blobs, records := Uploaded(all), Recorded(signers, docs);
    assert F.LoadPsbt(blobs, Sha256(PsbtBlob(all[0]))) == Success(all[0]);
    forall k | 0 <= k < |docs| ensures F.LoadPsbt(blobs, records[k].signedHash) == Success(docs[k]) {
      assert all[k + 1] == docs[k];
    }
  }

  // --- two keystores with one point ---

  function SharedKeys(first: KeyBody, second: KeyBody, other: KeyBody): seq<Key> {
    [Key(Some(1), first, "a", true), Key(Some(2), second, "b", true), Key(Some(3), other, "c", true)]
  }

  /** Keys already in string order stay where they are. */
  lemma InOrder(keys: seq<Key>)
    requires SortedBy(keys, KeyLe) && TextIdentifies(keys)
    ensures Sort(keys, KeyLe) == keys
  {
    KeyOrder();
    KeyOrderAntisymmetric(keys);
    SortSorts(keys, KeyLe);
    SortedUnique(keys, Sort(keys, KeyLe), KeyLe);
  }

  lemma SmallerLetter(a: char, b: char)
    requires a < b
    ensures LexLe([a], [b])
  {
  }

  lemma ThreeInOrder(a: Key, b: Key, c: Key)
    requires a.text == "a" && b.text == "b" && c.text == "c"
    ensures SortedBy([a, b, c], KeyLe) && TextIdentifies([a, b, c])
  {
    SmallerLetter('a', 'b');
    SmallerLetter('b', 'c');
    SmallerLetter('a', 'c');
  }

  lemma ThreeFingerprints(first: KeyBody, second: KeyBody, other: KeyBody)
    ensures Fingerprints(SharedKeys(first, second, other)) == [1, 2, 3]
  {
    var fps := Fingerprints(SharedKeys(first, second, other));
    assert fps[0] == 1 && fps[1] == 2 && fps[2] == 3;
  }

  lemma SharedKeysSort(first: KeyBody, second: KeyBody, other: KeyBody)
    ensures SortedMulti(2, SharedKeys(first, second, other)) == Success(Descriptor(2, SharedKeys(first, second, other)))
    ensures Distinct(Fingerprints(SharedKeys(first, second, other)))
  {
    var keys := SharedKeys(first, second, other);
    ThreeInOrder(keys[0], keys[1], keys[2]);
    assert keys == [keys[0], keys[1], keys[2]];
    InOrder(keys);
    ThreeFingerprints(first, second, other);
  }

  /** The first two keys derive the same points and the third one others: the same
      body submitted under two origins, or two related bodies. */
  ghost predicate FirstTwoShare(child: Derivation, keys: seq<Key>)
    requires |keys| == 3
  {
    forall index ::
      ChildOf(child, keys[0], index) == ChildOf(child, keys[1], index) != ChildOf(child, keys[2], index)
  }

  lemma SecondShares(child: Derivation, first: KeyBody, second: KeyBody, other: KeyBody, index: nat)
    requires FirstTwoShare(child, SharedKeys(first, second, other))
    ensures FingerprintNamesKey(SharedKeys(first, second, other))
    ensures SharesPoint(child, SharedKeys(first, second, other), index, 2)
    ensures !DistinctPoints(child, SharedKeys(first, second, other), index)
  {
    var keys := SharedKeys(first, second, other);
    ThreeFingerprints(first, second, other);
    DistinctFingerprintsName(keys);
    assert keys[0] in keys && keys[1] in keys && keys[0] != keys[1];
    assert ChildOf(child, keys[0], index) == ChildOf(child, keys[1], index);
  }

  /** A two-of-three wallet activates whatever its keys derive. */
  lemma SharedKeyWallet(network: Network, first: KeyBody, second: KeyBody, other: KeyBody) returns (w: W.WalletState)
    ensures exists cs: seq<W.WalletCommand> :: w == W.Run(W.New(W.WalletPolicy(0, network, 2, [1, 2, 3])), cs)
    ensures WH.Sound(w) && w.policy.network == network && w.policy.threshold == 2
    ensures W.StatusOf(w.events) == W.Active
    ensures W.KeystoresOf(w) == SharedKeys(first, second, other)
    ensures W.DescriptorOf(w) == Some(Descriptor(2, SharedKeys(first, second, other)))
    ensures forall child: Derivation, index: nat :: FirstTwoShare(child, W.KeystoresOf(w)) ==>
              !DistinctPoints(child, W.KeystoresOf(w), index)
  {
    var keys := SharedKeys(first, second, other);
    SharedKeysSort(first, second, other);
    w := CollectingActivates(W.WalletPolicy(0, network, 2, [1, 2, 3]), keys);
    forall child: Derivation, index: nat | FirstTwoShare(child, keys) ensures !DistinctPoints(child, keys, index) {
      SecondShares(child, first, second, other, index);
    }
  }

  lemma SharedKeyInScript(child: Derivation, first: KeyBody, second: KeyBody, other: KeyBody, o: InputMap)
      returns (b: Point, q: Point)
    requires FirstTwoShare(child, SharedKeys(first, second, other))
    requires C.FromDescriptor(child, Descriptor(2, SharedKeys(first, second, other)), o)
    ensures Attributed(o, b, 2) && Attributed(o, q, 3)
  {
    var keys := SharedKeys(first, second, other);
    var utxo :| o == InputFor(child, Descriptor(2, keys), utxo);
    b, q := ChildOf(child, keys[1], utxo.index), ChildOf(child, keys[2], utxo.index);
    assert LastOfPoint(child, keys, utxo.index, 1) && LastOfPoint(child, keys, utxo.index, 2);
    SourceAt(child, keys, utxo.index, 1);
    SourceAt(child, keys, utxo.index, 2);
  }

  lemma CompressedFills(o: InputMap, m: InputMap, k: Point)
    requires o.witnessScript.Some? && k in o.witnessScript.value.keys && PublicKey(true, k) in m.partialSigs
    ensures F.SignedSlots(m, o.witnessScript.value) != {}
  {
    assert F.Signs(m, k);
    assert Slot(k, 0) in F.SignedSlots(m, o.witnessScript.value);
  }

  lemma CompressedSigns(c: Crypto, unsigned: Psbt, threshold: nat, k: Point, fp: Fingerprint) returns (signed: Psbt)
    requires CanSign(c) && |unsigned.inputs| == 1 && MultisigSpend(unsigned, threshold)
    requires Attributed(unsigned.inputs[0], k, fp)
    ensures Acceptable(c, unsigned, signed, fp) && |signed.inputs| == 1 && Filled(unsigned, signed, 0) != {}
  {
    signed := SignsOneCoin(c, unsigned, threshold, k, fp, true);
    assert MultisigInput(unsigned.inputs[0], threshold);
    CompressedFills(unsigned.inputs[0], signed.inputs[0], k);
  }

  /** Two participants sign in the compressed form. */
  lemma TwoSign(c: Crypto, unsigned: Psbt, threshold: nat, b: Point, fb: Fingerprint, q: Point, fq: Fingerprint)
      returns (docs: seq<Psbt>)
    requires CanSign(c) && |unsigned.inputs| == 1 && MultisigSpend(unsigned, threshold) && fb != fq
    requires Attributed(unsigned.inputs[0], b, fb) && Attributed(unsigned.inputs[0], q, fq)
    ensures |docs| == 2 && Accepted(c, unsigned, [fb, fq], docs)
    ensures SameInputs(unsigned, docs) && AllCount(unsigned, docs)
  {
    var first := CompressedSigns(c, unsigned, threshold, b, fb);
    var second := CompressedSigns(c, unsigned, threshold, q, fq);
    docs := [first, second];
    TwoAccepted(c, unsigned, fb, first, fq, second);
    TwoCount(unsigned, first, second);
  }

  lemma TwoCount(unsigned: Psbt, first: Psbt, second: Psbt)
    requires |unsigned.inputs| == |first.inputs| == |second.inputs| == 1
    requires Filled(unsigned, first, 0) != {} && Filled(unsigned, second, 0) != {}
    ensures SameInputs(unsigned, [first, second]) && AllCount(unsigned, [first, second])
  {
    var docs := [first, second];
    forall k, i | 0 <= k < |docs| && 0 <= i < |unsigned.inputs| ensures Filled(unsigned, docs[k], i) != {} {
      assert k == 0 || k == 1;
    }
  }

  lemma TwoAccepted(c: Crypto, unsigned: Psbt, fb: Fingerprint, first: Psbt, fq: Fingerprint, second: Psbt)
    requires Acceptable(c, unsigned, first, fb) && Acceptable(c, unsigned, second, fq) && fb != fq
    ensures Accepted(c, unsigned, [fb, fq], [first, second])
  {
    var signers, docs := [fb, fq], [first, second];
    assert Distinct(signers);
    forall k | 0 <= k < |docs| ensures Acceptable(c, unsigned, docs[k], signers[k]) {
      assert k == 0 || k == 1;
    }
  }

  /** Such a wallet's session: the second and the third participant sign, both in
      the compressed form, and the threshold of two is met. The second one's
      signature alone fills two places, the job names that one signer, and the
      session answers that the threshold is not met. */
  lemma SharedKeyIsRefused(c: Crypto, network: Network, first: KeyBody, second: KeyBody, other: KeyBody)
      returns (w: W.WalletState, x: Facts, s: Session, unsigned: Psbt, funding: seq<FundingUtxo>)
    requires CanSign(c) && ExtractionWorks(c) && FirstTwoShare(c.child, SharedKeys(first, second, other))
    requires !first.path.Indefinite? && !second.path.Indefinite? && !other.path.Indefinite?
    ensures exists cs: seq<W.WalletCommand> :: w == W.Run(W.New(W.WalletPolicy(0, network, 2, [1, 2, 3])), cs)
    ensures W.StatusOf(w.events) == W.Active && W.DescriptorOf(w) == Some(x.descriptor)
    ensures var p := P.SnapshotOf(0, w, 1, OneCoin(network));
            && x.crypto == c && x.policy == p == s.policy && P.Proposable(w, OneCoin(network))
            && C.PlanFor(c.child, Proposed(p), Some(w), Some(funding), network) == C.Record(unsigned)
            && exists cs: seq<Command> :: s == Run(Proposed(p), cs)
    ensures Due(x, s, unsigned) && Signers(s.signatures) == [2, 3]
    ensures AllCount(unsigned, DocsOf(x.blobs, s.signatures))
    ensures var plan := F.PlanFor(c, x.blobs, s);
            && plan.Record? && plan.used == [2]
            && Finalize(s, plan.txid, Sha256(TxBlob(plan.tx)), plan.used) == (s, Failed(ThresholdNotMet(1, 2)))
  {
    w := SharedKeyWallet(network, first, second, other);
    unsigned, funding := OneCoinBuilds(c.child, w, 0, 1);
    ThreeFingerprints(first, second, other);
    x, s := SharedKeySession(c, P.SnapshotOf(0, w, 1, OneCoin(network)), first, second, other, unsigned);
    SecondShares(c.child, first, second, other, 0);
    SecondSharesEverywhere(c.child, first, second, other, unsigned);
    SecondIsRefused(x, s, unsigned);
  }

  /** The second and the third participant of such a wallet sign its only input. */
  lemma SharedKeySession(c: Crypto, p: Policy, first: KeyBody, second: KeyBody, other: KeyBody, unsigned: Psbt)
      returns (x: Facts, s: Session)
    requires CanSign(c) && FirstTwoShare(c.child, SharedKeys(first, second, other)) && |unsigned.inputs| == 1
    requires ValidPolicy(p) && StatusOf(Proposed(p).events) == Pending && p.threshold == 2 && p.keystores == [1, 2, 3]
    requires C.Built(c.child, p, Descriptor(2, SharedKeys(first, second, other)), unsigned)
    ensures x.crypto == c && x.policy == p && x.descriptor == Descriptor(2, SharedKeys(first, second, other))
    ensures s.policy == p && (exists cs: seq<Command> :: s == Run(Proposed(p), cs))
    ensures Due(x, s, unsigned) && Signers(s.signatures) == [2, 3]
    ensures AllCount(unsigned, DocsOf(x.blobs, s.signatures))
  {
    var b, q := SharedKeyInScript(c.child, first, second, other, unsigned.inputs[0]);
    var docs := TwoSign(c, unsigned, 2, b, 2, q, 3);
    x, s := DueSession(c, p, Descriptor(2, SharedKeys(first, second, other)), unsigned, [2, 3], docs);
  }

  lemma SecondSharesEverywhere(child: Derivation, first: KeyBody, second: KeyBody, other: KeyBody, unsigned: Psbt)
    requires FirstTwoShare(child, SharedKeys(first, second, other))
    ensures C.AnySharesEverywhere(child, Descriptor(2, SharedKeys(first, second, other)), unsigned, [2])
  {
    var keys := SharedKeys(first, second, other);
    forall i, utxo | 0 <= i < |unsigned.inputs| && unsigned.inputs[i] == InputFor(child, Descriptor(2, keys), utxo)
      ensures C.AnySharesPoint(child, keys, utxo.index, [2])
    {
      SecondShares(child, first, second, other, utxo.index);
      assert SharesPoint(child, keys, utxo.index, [2][0]);
    }
  }

  lemma SecondIsRefused(x: Facts, s: Session, unsigned: Psbt)
    requires Due(x, s, unsigned) && ExtractionWorks(x.crypto) && s.policy.threshold == 2
    requires FingerprintNamesKey(x.descriptor.keys)
    requires C.AnySharesEverywhere(x.crypto.child, x.descriptor, unsigned, [2])
    requires Signers(s.signatures) == [2, 3] && AllCount(unsigned, DocsOf(x.blobs, s.signatures))
    ensures var plan := F.PlanFor(x.crypto, x.blobs, s);
            && plan.Record? && plan.used == [2]
            && Finalize(s, plan.txid, Sha256(TxBlob(plan.tx)), plan.used) == (s, Failed(ThresholdNotMet(1, 2)))
  {
    hide C.Built, C.AnySharesEverywhere;
    assert Signers(s.signatures)[..1] == [2];
    CompressedEarlyIff(x, s, unsigned);
    var n := EarlyQuorumIsRefused(x, s, unsigned);
  }

  // --- a signature filed under the uncompressed form ---

  lemma LoneKeyInScript(child: Derivation, body: KeyBody, o: InputMap) returns (k: Point)
    requires C.FromDescriptor(child, Descriptor(1, LoneKey(body)), o)
    ensures Attributed(o, k, 1)
  {
    var keys := LoneKey(body);
    var utxo :| o == InputFor(child, Descriptor(1, keys), utxo);
    k := ChildOf(child, keys[0], utxo.index);
    assert LastOfPoint(child, keys, utxo.index, 0);
    SourceAt(child, keys, utxo.index, 0);
  }

  /** A one-of-one wallet's session whose only signer filed a genuine signature
      under the uncompressed form of the right key: the upload is accepted, the
      threshold is met, and the job is stuck on it for ever. */
  lemma UncompressedFormDoesNotCount(c: Crypto, network: Network, body: KeyBody)
      returns (w: W.WalletState, x: Facts, s: Session, unsigned: Psbt, funding: seq<FundingUtxo>)
    requires CanSign(c) && ExtractionWorks(c) && !body.path.Indefinite?
    ensures exists cs: seq<W.WalletCommand> :: w == W.Run(W.New(W.WalletPolicy(0, network, 1, [1])), cs)
    ensures W.StatusOf(w.events) == W.Active && W.DescriptorOf(w) == Some(x.descriptor)
    ensures forall index :: DistinctPoints(c.child, W.KeystoresOf(w), index)
    ensures var p := P.SnapshotOf(0, w, 1, OneCoin(network));
            && x.crypto == c && x.policy == p == s.policy && P.Proposable(w, OneCoin(network))
            && C.PlanFor(c.child, Proposed(p), Some(w), Some(funding), network) == C.Record(unsigned)
            && exists cs: seq<Command> :: s == Run(Proposed(p), cs)
    ensures Due(x, s, unsigned) && F.PlanFor(c, x.blobs, s) == F.Stuck
  {
    w := LoneKeyWallet(network, body);
    LoneKeyDerives(c.child, body);
    unsigned, funding := OneCoinBuilds(c.child, w, 0, 1);
    x, s := UncompressedSession(c, P.SnapshotOf(0, w, 1, OneCoin(network)), body, unsigned);
    PlanStuckIff(x, s, unsigned);
  }

  lemma LoneKeySigner(child: Derivation, p: Policy, body: KeyBody, unsigned: Psbt) returns (k: Point)
    requires C.Built(child, p, Descriptor(1, LoneKey(body)), unsigned) && |unsigned.inputs| == 1
    ensures MultisigSpend(unsigned, p.threshold) && Attributed(unsigned.inputs[0], k, 1)
  {
    assert C.FromDescriptor(child, Descriptor(1, LoneKey(body)), unsigned.inputs[0]);
    k := LoneKeyInScript(child, body, unsigned.inputs[0]);
  }

  lemma UncompressedSession(c: Crypto, p: Policy, body: KeyBody, unsigned: Psbt) returns (x: Facts, s: Session)
    requires CanSign(c) && |unsigned.inputs| == 1
    requires ValidPolicy(p) && StatusOf(Proposed(p).events) == Pending && p.threshold == 1 && p.keystores == [1]
    requires C.Built(c.child, p, Descriptor(1, LoneKey(body)), unsigned)
    ensures x.crypto == c && x.policy == p && x.descriptor == Descriptor(1, LoneKey(body))
    ensures s.policy == p && (exists cs: seq<Command> :: s == Run(Proposed(p), cs))
    ensures Due(x, s, unsigned) && |s.signatures| == 1 && !QuorumAt(unsigned, DocsOf(x.blobs, s.signatures), 1)
  {
    hide C.Built, MultisigSpend, Attributed, QuorumAt, Accepted, CanSign;
    var k := LoneKeySigner(c.child, p, body, unsigned);
    var docs := SignsUncompressed(c, unsigned, k);
    x, s := DueSession(c, p, Descriptor(1, LoneKey(body)), unsigned, [1], docs);
  }

  lemma SignsUncompressed(c: Crypto, unsigned: Psbt, k: Point) returns (docs: seq<Psbt>)
    requires CanSign(c) && |unsigned.inputs| == 1 && MultisigSpend(unsigned, 1)
    requires Attributed(unsigned.inputs[0], k, 1)
    ensures |docs| == 1 && Accepted(c, unsigned, [1], docs) && SameInputs(unsigned, docs)
    ensures !QuorumAt(unsigned, docs, 1)
  {
    var signed := SignsOneCoin(c, unsigned, 1, k, 1, false);
    NothingFilled(unsigned, signed);
    docs := [signed];
  }

  /** Nothing filed under a compressed form, nothing filled. */
  lemma NothingFilled(unsigned: Psbt, signed: Psbt)
    requires |unsigned.inputs| == |signed.inputs| == 1
    requires forall pk :: pk in signed.inputs[0].partialSigs ==> !pk.compressed
    ensures !QuorumAt(unsigned, [signed], 1)
  {
    assert Filled(unsigned, signed, 0) == {};
    assert [signed][..0] == [] && Tally(unsigned, [], 0) == 0;
    assert Tally(unsigned, [signed], 0) == 0;
  }
}
