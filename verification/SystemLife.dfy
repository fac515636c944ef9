/** The platform is inhabited: from the empty state, every wallet whose keystores
    can derive and whose signers can sign registers, collects, activates and spends,
    through every use case and job, up to a finalized session. */
module SystemLife {
  import opened Foundation
  import opened Documents
  import opened Descriptors
  import opened Storage
  import opened Submission
  import opened Spending
  import opened Quorum
  import opened Keystores
  import opened SessionModel
  import opened SessionHistory
  import opened SessionAnswers
  import opened System
  import opened SystemSafety
  import opened SystemTheorems
  import opened SystemProgress
  import opened SystemSteps
  import C = Creation
  import F = Finalization
  import L = Limits
  import P = Proposal
  import R = Registry
  import W = WalletModel
  import WA = WalletAnswers
  import WH = WalletHistory

  // --- collecting a wallet ---

  /** The wallet after its first `n` submissions is all there is. */
  ghost predicate OnlyWallet(env: Env, a: Sys, p: W.WalletPolicy, keys: seq<Key>, n: nat)
    requires n <= |keys| == |p.participants|
  {
    && a.registry.network == env.network && |a.registry.requests| == n
    && a.registry.wallets == map[p.id := W.Run(W.New(p), L.Adds(p.participants, keys)[..n])]
    && a == Sys(a.registry, map[], map[], [], [])
  }

  lemma Registered(env: Env, p: W.WalletPolicy, keys: seq<Key>) returns (a: Sys)
    requires L.Acceptance(p, keys) && p.network == env.network
    ensures Reached(env, a) && OnlyWallet(env, a, p, keys, 0)
  {
    assert Play(env, Initial(env), []) == Initial(env);
    StepReached(env, Initial(env), Wallets(R.Register(p)));
    a := Effect(env, Initial(env), Wallets(R.Register(p)));
    R.OpeningSteps(R.Empty(env.network), p, p.id);
    assert L.Adds(p.participants, keys)[..0] == [];
  }

  lemma Submits(env: Env, a: Sys, p: W.WalletPolicy, keys: seq<Key>, n: nat) returns (b: Sys)
    requires L.Acceptance(p, keys) && SortedMulti(p.threshold, keys).Success? && n < |keys|
    requires Reached(env, a) && OnlyWallet(env, a, p, keys, n)
    ensures Reached(env, b) && OnlyWallet(env, b, p, keys, n + 1)
  {
    hide Reached, WH.Sound, W.StatusOf, SortedMulti, W.DescriptorFingerprintOf;
    var c := W.DoAddKeystore(keys[n], p.participants[n]);
    var w := a.registry.wallets[p.id];
    StepReached(env, a, Wallets(R.Load(p.id)));
    var loaded := Effect(env, a, Wallets(R.Load(p.id)));
    R.OpeningSteps(a.registry, p, p.id);
    StepReached(env, loaded, Wallets(R.Act(n, c)));
    b := Effect(env, loaded, Wallets(R.Act(n, c)));
    L.FirstSubmissions(p, keys, n);
    L.NextIsTaken(p, keys, n, w);
    R.ServesUpToDate(a.registry.wallets, p.id, c);
    L.AddsSnoc(p, keys, n);
  }

  lemma {:induction false} Collects(env: Env, p: W.WalletPolicy, keys: seq<Key>, n: nat) returns (a: Sys)
    requires L.Acceptance(p, keys) && SortedMulti(p.threshold, keys).Success? && n <= |keys|
    requires p.network == env.network
    ensures Reached(env, a) && OnlyWallet(env, a, p, keys, n)
  {
    if n == 0 {
      a := Registered(env, p, keys);
    } else {
      var before := Collects(env, p, keys, n - 1);
      a := Submits(env, before, p, keys, n - 1);
    }
  }

  /** The wallet of these keys is stored and active. */
  ghost predicate StoredActive(a: Sys, p: W.WalletPolicy, keys: seq<Key>) {
    && p.id in a.registry.wallets
    && (var w := a.registry.wallets[p.id];
        && w.policy == p && WH.Sound(w) && W.StatusOf(w.events) == W.Active && W.KeystoresOf(w) == keys
        && W.DescriptorOf(w) == Some(SortedMulti(p.threshold, keys).value))
  }

  lemma Activates(env: Env, p: W.WalletPolicy, keys: seq<Key>) returns (a: Sys)
    requires L.Acceptance(p, keys) && SortedMulti(p.threshold, keys).Success? && p.network == env.network
    ensures Reached(env, a) && a == Sys(a.registry, map[], map[], [], []) && StoredActive(a, p, keys)
  {
    a := Collects(env, p, keys, |keys|);
    var w := L.CollectingActivates(p, keys);
    assert L.Adds(p.participants, keys)[..|keys|] == L.Adds(p.participants, keys);
  }

  // --- opening a session ---

  /** The session of that wallet was just proposed. */
  ghost predicate JustProposed(env: Env, a: Sys, p: W.WalletPolicy, keys: seq<Key>, policy: Policy, user: UserId) {
    && StoredActive(a, p, keys) && p.network == env.network
    && P.Snapshots(policy, 0, a.registry.wallets[p.id], user, L.OneCoin(p.network))
    && a == Sys(a.registry, map[0 := [Initialized(policy)]], map[], [Job(CreationJob, 0, Queued)], [])
  }

  lemma Proposes(env: Env, p: W.WalletPolicy, keys: seq<Key>, user: UserId) returns (a: Sys, policy: Policy)
    requires L.Acceptance(p, keys) && SortedMulti(p.threshold, keys).Success? && p.network == env.network
    ensures Reached(env, a) && JustProposed(env, a, p, keys, policy, user)
  {
    var before := Activates(env, p, keys);
    assert Distinct(L.OneCoin(p.network).inputs);
    policy := ProposalTakesEffectIff(env, before, 0, p.id, user, L.OneCoin(p.network));
    StepReached(env, before, Propose(0, p.id, user, L.OneCoin(p.network)));
    a := Effect(env, before, Propose(0, p.id, user, L.OneCoin(p.network)));
  }

  /** Coins the wallet can build the spend from. */
  lemma Coins(child: Derivation, d: Descriptor, network: Network) returns (funding: seq<FundingUtxo>)
    requires !NeverDerives(d)
    ensures CanBuild(child, L.OneCoin(network), d, funding)
  {
    var spend := L.OneCoin(network);
    assert spend.outputs[..0] == [] && IdealSum(spend.outputs) == 1;
    funding := SuitableCoins(child, spend, d, network);
    BuildOutcome(child, spend, d, funding, network);
  }

  /** The session is open: its document is stored, and the first `n` signers of
      `fps` have signed in the compressed form. */
  ghost predicate Gathered(env: Env, a: Sys, p: W.WalletPolicy, keys: seq<Key>, policy: Policy, unsigned: Psbt,
                           fps: seq<Fingerprint>, n: nat)
  {
    && Reached(env, a) && StoredActive(a, p, keys)
    && C.Built(env.crypto.child, policy, SortedMulti(p.threshold, keys).value, unsigned) && |unsigned.inputs| == 1
    && 0 in a.logs && LogGathers(a.blobs, a.logs[0], policy, unsigned, fps, n)
  }

  ghost predicate LogGathers(blobs: Blobs, es: Log, policy: Policy, unsigned: Psbt, fps: seq<Fingerprint>, n: nat) {
    && n <= |fps| && Signers(SignaturesIn(es)) == fps[..n]
    && StatusOf(es) == Collecting && LatestPolicy(es) == Some(policy)
    && LatestUnsignedHash(es) == Some(Sha256(PsbtBlob(unsigned)))
    && AllCounts(blobs, unsigned, SignaturesIn(es))
  }

  /** The stored document fills a place of the only input's script. */
  ghost predicate Counts(blobs: Blobs, unsigned: Psbt, hash: PsbtHash) {
    && F.LoadPsbt(blobs, hash).Success?
    && |F.LoadPsbt(blobs, hash).value.inputs| == |unsigned.inputs| == 1
    && Filled(unsigned, F.LoadPsbt(blobs, hash).value, 0) != {}
  }

  ghost predicate AllCounts(blobs: Blobs, unsigned: Psbt, sigs: seq<SignatureRecord>) {
    forall k :: 0 <= k < |sigs| ==> Counts(blobs, unsigned, sigs[k].signedHash)
  }

  lemma SameWallet(a: Sys, b: Sys, p: W.WalletPolicy, keys: seq<Key>)
    requires StoredActive(a, p, keys) && p.id in b.registry.wallets
    requires b.registry.wallets[p.id] == a.registry.wallets[p.id]
    ensures StoredActive(b, p, keys)
  {
  }

  lemma SameRegistry(a: Sys, b: Sys, p: W.WalletPolicy, keys: seq<Key>)
    requires StoredActive(a, p, keys) && b.registry == a.registry
    ensures StoredActive(b, p, keys)
  {
  }

  lemma Opens(env: Env, a: Sys, p: W.WalletPolicy, keys: seq<Key>, policy: Policy, user: UserId,
              fps: seq<Fingerprint>)
      returns (b: Sys, unsigned: Psbt)
    requires Reached(env, a) && JustProposed(env, a, p, keys, policy, user)
    requires SortedMulti(p.threshold, keys).Success? && !NeverDerives(SortedMulti(p.threshold, keys).value)
    ensures Gathered(env, b, p, keys, policy, unsigned, fps, 0)
  {
    var steps: seq<Step>;
    steps, unsigned := Opened(env, a, p, keys, policy, user);
    b := Play(env, a, steps);
    hide Play, Reached, StoredActive, C.Built, Counts, SortedMulti, P.Snapshots;
    PlayReached(env, a, steps);
    OpenedFacts(env, b, policy, unsigned);
    SameWallet(a, b, p, keys);
  }

  lemma Opened(env: Env, a: Sys, p: W.WalletPolicy, keys: seq<Key>, policy: Policy, user: UserId)
      returns (steps: seq<Step>, unsigned: Psbt)
    requires Reached(env, a) && JustProposed(env, a, p, keys, policy, user)
    requires SortedMulti(p.threshold, keys).Success? && !NeverDerives(SortedMulti(p.threshold, keys).value)
    ensures var b := Play(env, a, steps);
            && 0 in b.logs && b.logs[0] == [Initialized(policy), PsbtCreated(Sha256(PsbtBlob(unsigned)))]
            && p.id in b.registry.wallets && b.registry.wallets[p.id] == a.registry.wallets[p.id]
    ensures C.Built(env.crypto.child, policy, SortedMulti(p.threshold, keys).value, unsigned)
    ensures |unsigned.inputs| == 1
  {
    hide Play, Reached, C.Built, CanBuild, SortedMulti, NeverDerives;
    var funding := Coins(env.crypto.child, SortedMulti(p.threshold, keys).value, p.network);
    steps := Rerun(0, Some(funding));
    unsigned := OpenedLog(env, a, p, keys, policy, user, funding);
    KeepsWallet(env, a, steps, p.id);
  }

  lemma StepKeepsActive(env: Env, a: Sys, step: Step, id: WalletId)
    requires R.Consistent(a.registry) && id in a.registry.wallets
    requires W.StatusOf(a.registry.wallets[id].events) == W.Active
    ensures id in Effect(env, a, step).registry.wallets
    ensures Effect(env, a, step).registry.wallets[id] == a.registry.wallets[id]
  {
    hide R.Consistent, R.Effect, W.StatusOf;
    if step.Wallets? { R.StepKeepsWallet(a.registry, step.step, id); } else { OthersKeepRegistry(env, a, step); }
  }

  lemma OthersKeepRegistry(env: Env, a: Sys, step: Step)
    requires !step.Wallets?
    ensures Effect(env, a, step).registry == a.registry
  {
  }

  lemma ReachedRegistry(env: Env, a: Sys)
    requires Reached(env, a)
    ensures R.Consistent(a.registry)
  {
    ReachedInv(env, a);
  }

  /** An active wallet stays as it is. */
  lemma {:induction false} KeepsWallet(env: Env, a: Sys, steps: seq<Step>, id: WalletId)
    requires Reached(env, a) && id in a.registry.wallets
    requires W.StatusOf(a.registry.wallets[id].events) == W.Active
    ensures id in Play(env, a, steps).registry.wallets
    ensures Play(env, a, steps).registry.wallets[id] == a.registry.wallets[id]
    decreases |steps|
  {
    hide Reached, Effect, R.Consistent, W.StatusOf;
    if steps != [] {
      StepReached(env, a, steps[0]);
      ReachedRegistry(env, a);
      StepKeepsActive(env, a, steps[0], id);
      KeepsWallet(env, Effect(env, a, steps[0]), steps[1..], id);
    }
  }

  lemma OpenedLog(env: Env, a: Sys, p: W.WalletPolicy, keys: seq<Key>, policy: Policy, user: UserId,
                  funding: seq<FundingUtxo>)
      returns (unsigned: Psbt)
    requires Reached(env, a) && JustProposed(env, a, p, keys, policy, user)
    requires SortedMulti(p.threshold, keys).Success?
    requires CanBuild(env.crypto.child, L.OneCoin(p.network), SortedMulti(p.threshold, keys).value, funding)
    ensures var b := Play(env, a, Rerun(0, Some(funding)));
            0 in b.logs && b.logs[0] == [Initialized(policy), PsbtCreated(Sha256(PsbtBlob(unsigned)))]
    ensures C.Built(env.crypto.child, policy, SortedMulti(p.threshold, keys).value, unsigned)
    ensures |unsigned.inputs| == 1
  {
    hide Play, Reached, CanBuild, SortedMulti, C.Built, P.Snapshots;
    unsigned := ProposalBuilds(env, a, p, keys, policy, user, funding);
    RerunCreation(env, a, 0, Some(funding));
    CreationAnswers(Proposed(policy), Sha256(PsbtBlob(unsigned)));
  }

  lemma ProposalBuilds(env: Env, a: Sys, p: W.WalletPolicy, keys: seq<Key>, policy: Policy, user: UserId,
                       funding: seq<FundingUtxo>)
      returns (unsigned: Psbt)
    requires JustProposed(env, a, p, keys, policy, user) && SortedMulti(p.threshold, keys).Success?
    requires CanBuild(env.crypto.child, L.OneCoin(p.network), SortedMulti(p.threshold, keys).value, funding)
    ensures policy.walletId == p.id
    ensures Replay([Initialized(policy)]) == Some(Proposed(policy)) && StatusOf([Initialized(policy)]) == Pending
    ensures C.PlanFor(env.crypto.child, Proposed(policy), Some(a.registry.wallets[p.id]), Some(funding), env.network)
            == C.Record(unsigned)
    ensures C.Built(env.crypto.child, policy, SortedMulti(p.threshold, keys).value, unsigned)
    ensures |unsigned.inputs| == 1
  {
    var w := a.registry.wallets[p.id];
    var s := Proposed(policy);
    P.SnapshotMeaning(0, w, user, L.OneCoin(p.network));
    P.SnapshotIsValid(0, w, user, L.OneCoin(p.network));
    L.NewIsPending(policy);
    C.PendingIsFresh(s.events);
    C.CreationOutcomeIff(env.crypto.child, s, w, funding, env.network);
    hide CanBuild, SortedMulti;
    unsigned := C.PlanFor(env.crypto.child, s, Some(w), Some(funding), env.network).psbt;
    C.CreationBuildsMultisig(env.crypto.child, s, w, Some(funding), env.network);
    C.BuiltIsMultisig(env.crypto.child, policy, W.DescriptorOf(w).value, unsigned);
  }

  lemma OpenedFacts(env: Env, b: Sys, policy: Policy, unsigned: Psbt)
    requires 0 in b.logs && b.logs[0] == [Initialized(policy), PsbtCreated(Sha256(PsbtBlob(unsigned)))]
    ensures StatusOf(b.logs[0]) == Collecting && LatestPolicy(b.logs[0]) == Some(policy)
    ensures LatestUnsignedHash(b.logs[0]) == Some(Sha256(PsbtBlob(unsigned))) && SignaturesIn(b.logs[0]) == []
  {
    var es := b.logs[0];
    assert es[..1] == [Initialized(policy)] && es[..1][..0] == [];
    assert SignaturesIn(es[..1]) == [];
  }

  // --- signing it ---

  /** The `n`-th participant's keystore has a key of its own at the only input. */
  lemma SignerHasKey(child: Derivation, p: W.WalletPolicy, keys: seq<Key>, policy: Policy, unsigned: Psbt, n: nat)
      returns (k: Point)
    requires SortedMulti(p.threshold, keys).Success? && Distinct(Fingerprints(keys)) && n < |keys|
    requires C.Built(child, policy, SortedMulti(p.threshold, keys).value, unsigned) && |unsigned.inputs| == 1
    requires forall index :: DistinctPoints(child, keys, index)
    ensures Attributed(unsigned.inputs[0], k, KeystoreFingerprint(keys[n]))
  {
    var d := SortedMulti(p.threshold, keys).value;
    assert C.FromDescriptor(child, d, unsigned.inputs[0]);
    var utxo :| unsigned.inputs[0] == InputFor(child, d, utxo);
    SameKeys(child, p.threshold, keys, utxo.index);
    DistinctPointsGiveOneKey(child, d, utxo);
    assert keys[n] in d.keys;
    var i :| 0 <= i < |d.keys| && d.keys[i] == keys[n];
    assert Fingerprints(d.keys)[i] in Fingerprints(d.keys);
    k :| Attributed(unsigned.inputs[0], k, Fingerprints(d.keys)[i]);
  }

  lemma SameKeys(child: Derivation, threshold: nat, keys: seq<Key>, index: nat)
    requires SortedMulti(threshold, keys).Success? && Distinct(Fingerprints(keys))
    requires DistinctPoints(child, keys, index)
    ensures var d := SortedMulti(threshold, keys).value;
            && (forall k :: k in d.keys <==> k in keys)
            && FingerprintNamesKey(d.keys) && DistinctPoints(child, d.keys, index)
  {
    WH.SortedHasSameKeys(keys);
    C.SortingKeepsNames(keys);
  }

  /** The next participant signs. */
  lemma OneMoreSigns(env: Env, a: Sys, p: W.WalletPolicy, keys: seq<Key>, policy: Policy, unsigned: Psbt, n: nat)
      returns (b: Sys)
    requires L.Acceptance(p, keys) && SortedMulti(p.threshold, keys).Success? && n < |keys|
    requires L.CanSign(env.crypto) && forall index :: DistinctPoints(env.crypto.child, keys, index)
    requires Gathered(env, a, p, keys, policy, unsigned, Fingerprints(keys), n)
    requires policy.walletId == p.id && policy.threshold == p.threshold
    ensures Gathered(env, b, p, keys, policy, unsigned, Fingerprints(keys), n + 1)
  {
    var fps := Fingerprints(keys);
    assert Distinct(fps);
    var user, fp := HolderOf(env, a, p, keys, n);
    var signed := ParticipantSigns(env, p, keys, policy, unsigned, n);
    NotYetSigned(a.logs[0], fps, n);
    hide DistinctPoints, L.Acceptance, L.CanSign, SortedMulti, Gathered, Acceptable, Filled;
    b := Uploads(env, a, p, keys, policy, unsigned, n, user, signed);
    GatheredSnoc(env, a, b, p, keys, policy, unsigned, n, signed);
  }

  lemma Uploads(env: Env, a: Sys, p: W.WalletPolicy, keys: seq<Key>, policy: Policy, unsigned: Psbt, n: nat,
                user: UserId, signed: Psbt)
      returns (b: Sys)
    requires n < |keys| && SortedMulti(p.threshold, keys).Success? && policy.walletId == p.id
    requires Gathered(env, a, p, keys, policy, unsigned, Fingerprints(keys), n)
    requires WA.Holds(a.registry.wallets[p.id].events, user, keys[n]) && !SignedBy(a.logs[0], Fingerprints(keys)[n])
    requires Acceptable(env.crypto, unsigned, signed, Fingerprints(keys)[n])
    ensures Reached(env, b) && b.registry == a.registry
    ensures b.logs == a.logs[0 := a.logs[0] + [SignatureAdded(Fingerprints(keys)[n], Sha256(PsbtBlob(signed)))]]
    ensures b.blobs == a.blobs[Sha256(PsbtBlob(signed)) := PsbtBlob(signed)]
  {
    hide Play, Reached, C.Built, AllCounts, Acceptable, SortedMulti, WH.Sound;
    UploadRecordsIff(env, a, 0, user, keys[n], signed, unsigned);
    var steps := [StartUpload(0, user), PutUpload(|a.requests|, signed), CommitUpload(|a.requests|)];
    PlayReached(env, a, steps);
    b := Play(env, a, steps);
  }

  lemma GatheredSnoc(env: Env, a: Sys, b: Sys, p: W.WalletPolicy, keys: seq<Key>, policy: Policy, unsigned: Psbt,
                     n: nat, signed: Psbt)
    requires SortedMulti(p.threshold, keys).Success? && n < |keys|
    requires Gathered(env, a, p, keys, policy, unsigned, Fingerprints(keys), n)
    requires Reached(env, b) && b.registry == a.registry
    requires b.logs == a.logs[0 := a.logs[0] + [SignatureAdded(Fingerprints(keys)[n], Sha256(PsbtBlob(signed)))]]
    requires b.blobs == a.blobs[Sha256(PsbtBlob(signed)) := PsbtBlob(signed)]
    requires |signed.inputs| == 1 && Filled(unsigned, signed, 0) != {}
    ensures Gathered(env, b, p, keys, policy, unsigned, Fingerprints(keys), n + 1)
  {
    hide Reached, C.Built, LogGathers, SortedMulti, StoredActive, Filled;
    SameRegistry(a, b, p, keys);
    LogSnoc(a.blobs, a.logs[0], policy, unsigned, Fingerprints(keys), n, signed);
  }

  lemma LogSnoc(blobs: Blobs, es: Log, policy: Policy, unsigned: Psbt, fps: seq<Fingerprint>, n: nat, signed: Psbt)
    requires LogGathers(blobs, es, policy, unsigned, fps, n) && n < |fps|
    requires |signed.inputs| == |unsigned.inputs| == 1 && Filled(unsigned, signed, 0) != {}
    ensures var h := Sha256(PsbtBlob(signed));
            LogGathers(blobs[h := PsbtBlob(signed)], es + [SignatureAdded(fps[n], h)], policy, unsigned, fps, n + 1)
  {
    var h := Sha256(PsbtBlob(signed));
    hide AllCounts, Filled, StatusOf;
    SignedFacts(es, es + [SignatureAdded(fps[n], h)], fps[n], h);
    StillCounts(blobs, blobs[h := PsbtBlob(signed)], unsigned, signed, SignaturesIn(es),
                SignaturesIn(es + [SignatureAdded(fps[n], h)]));
    assert fps[..n + 1] == fps[..n] + [fps[n]];
  }

  lemma ParticipantSigns(env: Env, p: W.WalletPolicy, keys: seq<Key>, policy: Policy, unsigned: Psbt, n: nat)
      returns (signed: Psbt)
    requires L.Acceptance(p, keys) && SortedMulti(p.threshold, keys).Success? && n < |keys|
    requires L.CanSign(env.crypto) && forall index :: DistinctPoints(env.crypto.child, keys, index)
    requires C.Built(env.crypto.child, policy, SortedMulti(p.threshold, keys).value, unsigned)
    requires |unsigned.inputs| == 1 && policy.threshold == p.threshold
    ensures Acceptable(env.crypto, unsigned, signed, Fingerprints(keys)[n])
    ensures |signed.inputs| == 1 && Filled(unsigned, signed, 0) != {}
  {
    var point := SignerHasKey(env.crypto.child, p, keys, policy, unsigned, n);
    C.BuiltIsMultisig(env.crypto.child, policy, SortedMulti(p.threshold, keys).value, unsigned);
    signed := L.CompressedSigns(env.crypto, unsigned, p.threshold, point, Fingerprints(keys)[n]);
  }

  lemma HolderOf(env: Env, a: Sys, p: W.WalletPolicy, keys: seq<Key>, n: nat) returns (user: UserId, fp: Fingerprint)
    requires StoredActive(a, p, keys) && n < |keys|
    ensures WA.Holds(a.registry.wallets[p.id].events, user, keys[n])
    ensures fp == Fingerprints(keys)[n]
            == if keys[n].origin.Some? then keys[n].origin.value else keys[n].body.fingerprint
  {
    var w := a.registry.wallets[p.id];
    var subs := W.Submissions(w.events);
    assert W.Keys(subs)[n] == keys[n] && subs[n] == W.Submission(subs[n].user, keys[n]);
    user := subs[n].user;
    WA.SubmissionsMeaning(w.events, user, keys[n]);
    fp := Fingerprints(keys)[n];
  }

  lemma NotYetSigned(es: Log, fps: seq<Fingerprint>, n: nat)
    requires n < |fps| && Distinct(fps) && Signers(SignaturesIn(es)) == fps[..n]
    ensures !SignedBy(es, fps[n])
  {
    SignedIffRecorded(es, fps[n]);
    SignedIffSigner(SignaturesIn(es), fps[n]);
    if SignedBy(es, fps[n]) {
      var i :| 0 <= i < |es| && es[i].SignatureAdded? && es[i].fingerprint == fps[n];
      assert Matches(SignatureBy(fps[n]), es[i]);
      NoResetMeaning(es, SignatureBy(fps[n]));
    }
  }

  lemma SignedFacts(es: Log, after: Log, fp: Fingerprint, h: PsbtHash)
    requires after == es + [SignatureAdded(fp, h)]
    ensures StatusOf(after) == StatusOf(es) && LatestPolicy(after) == LatestPolicy(es)
    ensures LatestUnsignedHash(after) == LatestUnsignedHash(es)
    ensures SignaturesIn(after) == SignaturesIn(es) + [SignatureRecord(fp, h)]
    ensures Signers(SignaturesIn(after)) == Signers(SignaturesIn(es)) + [fp]
  {
    ReplaySnoc(es, SignatureAdded(fp, h));
    assert after[..|es|] == es;
  }

  lemma StillCounts(a: Blobs, b: Blobs, unsigned: Psbt, signed: Psbt, sigs: seq<SignatureRecord>,
                    after: seq<SignatureRecord>)
    requires b == a[Sha256(PsbtBlob(signed)) := PsbtBlob(signed)] && |after| == |sigs| + 1
    requires after == sigs + [SignatureRecord(after[|sigs|].fingerprint, Sha256(PsbtBlob(signed)))]
    requires |signed.inputs| == |unsigned.inputs| == 1 && Filled(unsigned, signed, 0) != {}
    requires AllCounts(a, unsigned, sigs)
    ensures AllCounts(b, unsigned, after)
  {
    forall k | 0 <= k < |after| ensures Counts(b, unsigned, after[k].signedHash) {
      if k < |sigs| {
        assert after[k] == sigs[k] && Counts(a, unsigned, sigs[k].signedHash);
        PutThenFetch(a, PsbtBlob(signed), sigs[k].signedHash);
      } else {
        PutThenFetch(a, PsbtBlob(signed), after[k].signedHash);
      }
    }
  }

  lemma {:induction false} Signs(env: Env, a: Sys, p: W.WalletPolicy, keys: seq<Key>, policy: Policy, unsigned: Psbt,
                                 n: nat)
      returns (b: Sys)
    requires L.Acceptance(p, keys) && SortedMulti(p.threshold, keys).Success? && n <= |keys|
    requires L.CanSign(env.crypto) && forall index :: DistinctPoints(env.crypto.child, keys, index)
    requires Gathered(env, a, p, keys, policy, unsigned, Fingerprints(keys), 0)
    requires policy.walletId == p.id && policy.threshold == p.threshold
    ensures Gathered(env, b, p, keys, policy, unsigned, Fingerprints(keys), n)
  {
    hide Gathered, DistinctPoints, L.CanSign, L.Acceptance, SortedMulti;
    if n == 0 {
      b := a;
    } else {
      var before := Signs(env, a, p, keys, policy, unsigned, n - 1);
      b := OneMoreSigns(env, before, p, keys, policy, unsigned, n - 1);
    }
  }

  // --- finalizing it ---

  /** A threshold of them ends the session. */
  lemma Finishes(env: Env, a: Sys, p: W.WalletPolicy, keys: seq<Key>, policy: Policy, unsigned: Psbt) returns (b: Sys)
    requires L.Acceptance(p, keys) && SortedMulti(p.threshold, keys).Success?
    requires ExtractionWorks(env.crypto) && forall index :: DistinctPoints(env.crypto.child, keys, index)
    requires Gathered(env, a, p, keys, policy, unsigned, Fingerprints(keys), p.threshold)
    requires policy.walletId == p.id && policy.threshold == p.threshold
    ensures Reached(env, b) && 0 in b.logs && StatusOf(b.logs[0]) == FinalizedStatus
    ensures LatestPolicy(b.logs[0]) == Some(policy)
  {
    var j, found := DistinctPointsFinishIff(env, a, 0);
    var x, s := SnapshotFacts(env, a, a.logs[0]), Replay(a.logs[0]).value;
    OneCoinDistinct(env.crypto.child, p, keys, policy, unsigned);
    FactsOfWallet(env, a, p, keys, policy);
    hide Reached, C.Built, SortedMulti, DistinctPoints, Play, StoredActive, SomeCoinDistinct, LogOk, ScriptQuorum;
    QuorumOfCounts(x, s, found, unsigned);
    b := Play(env, a, Rerun(j, None));
    PlayReached(env, a, Rerun(j, None));
    LaterState(env, a, Rerun(j, None), 0);
  }

  lemma FactsOfWallet(env: Env, a: Sys, p: W.WalletPolicy, keys: seq<Key>, policy: Policy)
    requires StoredActive(a, p, keys) && SortedMulti(p.threshold, keys).Success? && policy.walletId == p.id
    requires 0 in a.logs && LatestPolicy(a.logs[0]) == Some(policy)
    ensures var x := SnapshotFacts(env, a, a.logs[0]);
            x.descriptor == SortedMulti(p.threshold, keys).value && x.crypto == env.crypto && x.blobs == a.blobs
  {
  }

  lemma QuorumOfCounts(x: Facts, s: Session, found: Psbt, unsigned: Psbt)
    requires Due(x, s, found) && s.unsignedHash == Some(Sha256(PsbtBlob(unsigned))) && |unsigned.inputs| == 1
    requires AllCounts(x.blobs, unsigned, s.signatures)
    ensures found == unsigned && ScriptQuorum(x, s, unsigned)
  {
    hide C.Built;
    FetchMeaning(x.blobs, s.unsignedHash.value);
    AllCounted(x.blobs, unsigned, s.signatures);
    CompressedFills(x, s, unsigned);
  }

  lemma AllCounted(blobs: Blobs, unsigned: Psbt, sigs: seq<SignatureRecord>)
    requires AllLoad(blobs, sigs) && SameInputs(unsigned, DocsOf(blobs, sigs)) && |unsigned.inputs| == 1
    requires AllCounts(blobs, unsigned, sigs)
    ensures AllCount(unsigned, DocsOf(blobs, sigs))
  {
    var docs := DocsOf(blobs, sigs);
    forall k, i | 0 <= k < |docs| && 0 <= i < |unsigned.inputs| ensures Filled(unsigned, docs[k], i) != {} {
      assert Counts(blobs, unsigned, sigs[k].signedHash);
    }
  }

  lemma OneCoinDistinct(child: Derivation, p: W.WalletPolicy, keys: seq<Key>, policy: Policy, unsigned: Psbt)
    requires SortedMulti(p.threshold, keys).Success? && Distinct(Fingerprints(keys))
    requires C.Built(child, policy, SortedMulti(p.threshold, keys).value, unsigned) && |unsigned.inputs| == 1
    requires forall index :: DistinctPoints(child, keys, index)
    ensures SomeCoinDistinct(child, SortedMulti(p.threshold, keys).value, unsigned)
  {
    var d := SortedMulti(p.threshold, keys).value;
    assert C.FromDescriptor(child, d, unsigned.inputs[0]);
    var utxo :| unsigned.inputs[0] == InputFor(child, d, utxo);
    SameKeys(child, p.threshold, keys, utxo.index);
  }

  /** Every wallet of usable keys with points of their own, whose signers can sign,
      spends: the platform reaches a collecting and then a finalized session of it. */
  lemma EveryWalletSpends(env: Env, p: W.WalletPolicy, keys: seq<Key>, user: UserId) returns (open: Sys, closed: Sys)
    requires L.Acceptance(p, keys) && SortedMulti(p.threshold, keys).Success? && p.network == env.network
    requires forall key :: key in keys ==> !key.body.path.Indefinite?
    requires forall index :: DistinctPoints(env.crypto.child, keys, index)
    requires L.CanSign(env.crypto) && ExtractionWorks(env.crypto)
    ensures Reached(env, open) && 0 in open.logs && StatusOf(open.logs[0]) == Collecting
    ensures Reached(env, closed) && 0 in closed.logs && StatusOf(closed.logs[0]) == FinalizedStatus
    ensures LatestPolicy(closed.logs[0]) == LatestPolicy(open.logs[0])
    ensures LatestPolicy(open.logs[0]).Some?
    ensures var policy := LatestPolicy(open.logs[0]).value;
            policy.walletId == p.id && policy.proposedBy == user && policy.spend == L.OneCoin(p.network)
  {
    var proposed, policy := Proposes(env, p, keys, user);
    DerivesSomewhere(p.threshold, keys);
    var unsigned;
    open, unsigned := Opens(env, proposed, p, keys, policy, user, Fingerprints(keys));
    var gathered := Signs(env, open, p, keys, policy, unsigned, p.threshold);
    closed := Finishes(env, gathered, p, keys, policy, unsigned);
  }

  lemma DerivesSomewhere(threshold: nat, keys: seq<Key>)
    requires SortedMulti(threshold, keys).Success? && Distinct(Fingerprints(keys))
    requires forall key :: key in keys ==> !key.body.path.Indefinite?
    ensures !NeverDerives(SortedMulti(threshold, keys).value)
  {
    WH.SortedHasSameKeys(keys);
    var d := SortedMulti(threshold, keys).value;
    forall i | 0 <= i < |d.keys| ensures !d.keys[i].body.path.Indefinite? { assert d.keys[i] in keys; }
  }

  /** A signature scheme in which everything verifies, to show that the theorem above
      speaks of something. */
  function Lenient(): Crypto {
    Crypto((body: KeyBody, index: nat) => Point(body.id), (psbt: Psbt, i: nat) => Some(0),
           (message: int, bytes: int, point: Point) => true, (psbt: Psbt) => Some(0), (tx: FinalTx) => tx)
  }

  /** From the empty state some steps reach a collecting session, and some a
      finalized one. */
  lemma PlatformIsInhabited(network: Network) returns (env: Env, open: Sys, closed: Sys)
    ensures env.network == network
    ensures Reached(env, open) && exists sid :: sid in open.logs && StatusOf(open.logs[sid]) == Collecting
    ensures Reached(env, closed) && exists sid :: sid in closed.logs && StatusOf(closed.logs[sid]) == FinalizedStatus
  {
    env := Env(Lenient(), network);
    var body := KeyBody(0, 0, Ranged);
    L.LoneKeySorts(body);
    L.LoneKeyDerives(env.crypto.child, body);
    LenientSigns();
    open, closed := EveryWalletSpends(env, W.WalletPolicy(0, network, 1, [1]), L.LoneKey(body), 1);
  }

  lemma LenientSigns()
    ensures L.CanSign(Lenient()) && ExtractionWorks(Lenient())
  {
    forall message: int, point: Point ensures L.Signable(Lenient(), message, point) {
      assert Lenient().verifies(message, 0, point);
    }
  }
}
