/** Proposing a spend on an active wallet: the checks, and the signing policy the
    session snapshots from the wallet. */
module Proposal {
  import opened Foundation
  import opened Documents
  import opened Sorting
  import S = SessionModel
  import SH = SessionHistory
  import W = WalletModel
  import WH = WalletHistory

  const MAX_FEE_SATS := 1_000_000
  const MAX_SPEND_INPUTS := 100
  const MAX_SPEND_OUTPUTS := 100
  /** Dust threshold of a P2WSH output, in sats. */
  const P2WSH_DUST: U64 := 330

  datatype ProposalError =
    | WalletNotActive(status: W.WalletStatus)
    | EmptyInputs
    | TooManyInputs(count: nat)
    | DuplicateInput(outpoint: OutPoint)
    | EmptyOutputs
    | TooManyOutputs(count: nat)
    | InvalidAddress
    | DustOutput(amount: U64, dust: U64)
    | FeeExceedsMax(fee: U64)

  predicate OutPointLe(a: OutPoint, b: OutPoint) {
    a.txid < b.txid || (a.txid == b.txid && a.vout <= b.vout)
  }

  ghost predicate OutputsOk(outputs: seq<SpendOutput>, network: Network) {
    forall i :: 0 <= i < |outputs| ==>
      network in outputs[i].address.networks && outputs[i].amount >= outputs[i].address.dust
  }

  /** What a spend must satisfy to be proposed on a wallet. */
  ghost predicate Proposable(w: W.WalletState, spend: SpendSpec) {
    && W.StatusOf(w.events) == W.Active
    && 0 < |spend.inputs| <= MAX_SPEND_INPUTS
    && Distinct(spend.inputs)
    && 0 < |spend.outputs| <= MAX_SPEND_OUTPUTS
    && OutputsOk(spend.outputs, w.policy.network)
    && (spend.change.Some? ==> spend.change.value.amount >= P2WSH_DUST)
    && spend.fee <= MAX_FEE_SATS
  }

  function SnapshotOf(id: SessionId, w: W.WalletState, proposedBy: UserId, spend: SpendSpec): S.Policy {
    S.Policy(id, w.policy.id, proposedBy, spend, w.policy.threshold, Fingerprints(W.KeystoresOf(w)))
  }

  /** The policy of a session proposed on the wallet: the proposal, whole, and the
      wallet's threshold and keystores, in the order they are held. */
  ghost predicate Snapshots(p: S.Policy, id: SessionId, w: W.WalletState, proposedBy: UserId, spend: SpendSpec) {
    && p.id == id && p.walletId == w.policy.id && p.proposedBy == proposedBy && p.spend == spend
    && p.threshold == w.policy.threshold
    && (var held := W.KeystoresOf(w);
        && |p.keystores| == |held|
        && forall i :: 0 <= i < |held| ==>
             p.keystores[i] == if held[i].origin.Some? then held[i].origin.value else held[i].body.fingerprint)
  }

  lemma SnapshotMeaning(id: SessionId, w: W.WalletState, proposedBy: UserId, spend: SpendSpec)
    ensures Snapshots(SnapshotOf(id, w, proposedBy, spend), id, w, proposedBy, spend)
    ensures forall p :: Snapshots(p, id, w, proposedBy, spend) ==> p == SnapshotOf(id, w, proposedBy, spend)
  {
    forall p | Snapshots(p, id, w, proposedBy, spend) ensures p == SnapshotOf(id, w, proposedBy, spend) {
      assert p.keystores == Fingerprints(W.KeystoresOf(w));
    }
  }

  /** The limits, in numbers. */
  lemma ProposableMeaning(w: W.WalletState, spend: SpendSpec)
    ensures Proposable(w, spend) <==>
            && W.StatusOf(w.events) == W.Active
            && 1 <= |spend.inputs| <= 100 && 1 <= |spend.outputs| <= 100
            && (forall i, j :: 0 <= i < j < |spend.inputs| ==> spend.inputs[i] != spend.inputs[j])
            && (forall output :: output in spend.outputs ==>
                  w.policy.network in output.address.networks && output.amount >= output.address.dust)
            && (spend.change.Some? ==> spend.change.value.amount >= 330)
            && spend.fee <= 1_000_000
  {
    if forall output :: output in spend.outputs ==>
         w.policy.network in output.address.networks && output.amount >= output.address.dust {
      forall i | 0 <= i < |spend.outputs|
        ensures w.policy.network in spend.outputs[i].address.networks
        ensures spend.outputs[i].amount >= spend.outputs[i].address.dust
      {
        assert spend.outputs[i] in spend.outputs;
      }
    }
  }

  ghost predicate InputsOk(spend: SpendSpec) {
    0 < |spend.inputs| <= MAX_SPEND_INPUTS && Distinct(spend.inputs)
  }

  /** The first output in the way: not on the wallet's network, or below dust. */
  ghost predicate FirstBad(outputs: seq<SpendOutput>, network: Network, e: ProposalError) {
    exists i :: 0 <= i < |outputs| && OutputsOk(outputs[..i], network) && Defect(outputs[i], network, e)
  }

  ghost predicate Defect(output: SpendOutput, network: Network, e: ProposalError) {
    if network !in output.address.networks then e == InvalidAddress
    else output.amount < output.address.dust && e == DustOutput(output.amount, output.address.dust)
  }

  /** The error is that of the first check, in the sources' order, that fails. */
  ghost predicate Justified(w: W.WalletState, spend: SpendSpec, e: ProposalError) {
    if W.StatusOf(w.events) != W.Active then e == WalletNotActive(W.StatusOf(w.events))
    else if spend.inputs == [] then e == EmptyInputs
    else if |spend.inputs| > MAX_SPEND_INPUTS then e == TooManyInputs(|spend.inputs|)
    else if !InputsOk(spend) then
      && e.DuplicateInput?
      && exists i, j :: 0 <= i < j < |spend.inputs| && spend.inputs[i] == e.outpoint == spend.inputs[j]
    else if spend.outputs == [] then e == EmptyOutputs
    else if |spend.outputs| > MAX_SPEND_OUTPUTS then e == TooManyOutputs(|spend.outputs|)
    else if !OutputsOk(spend.outputs, w.policy.network) then FirstBad(spend.outputs, w.policy.network, e)
    else if spend.change.Some? && spend.change.value.amount < P2WSH_DUST then
      e == DustOutput(spend.change.value.amount, P2WSH_DUST)
    else e == FeeExceedsMax(spend.fee)
  }

  lemma OutPointOrder()
    ensures TotalPreorder(OutPointLe)
    ensures forall s: seq<OutPoint> :: AntisymmetricOn(OutPointLe, s)
  {
  }

  lemma PairInSorted<T>(s: seq<T>, t: seq<T>, k: nat)
    requires multiset(s) == multiset(t) && k + 1 < |t| && t[k] == t[k + 1]
    ensures multiset(s)[t[k]] >= 2
  {
    assert t == t[..k] + [t[k]] + [t[k + 1]] + t[k + 2..];
    assert multiset(t) == multiset(t[..k]) + multiset{t[k]} + multiset{t[k + 1]} + multiset(t[k + 2..]);
  }

  /** Sort, then look for equal neighbours: finds a duplicate iff there is one. */
  method FindDuplicate(inputs: seq<OutPoint>) returns (duplicate: Option<OutPoint>)
    ensures duplicate.None? <==> Distinct(inputs)
    ensures duplicate.Some? ==>
              exists i, j :: 0 <= i < j < |inputs| && inputs[i] == duplicate.value == inputs[j]
  {
    OutPointOrder();
    var sorted := Sort(inputs, OutPointLe);
    SortSorts(inputs, OutPointLe);
    SortedDistinctIffAdjacent(sorted, OutPointLe);
    DistinctPermutes(inputs, sorted);
    var i := 0;
    while i + 1 < |sorted|
      invariant 0 <= i <= |sorted|
      invariant forall j :: 0 <= j < i && j + 1 < |sorted| ==> sorted[j] != sorted[j + 1]
    {
      if sorted[i] == sorted[i + 1] {
        PairInSorted(inputs, sorted, i);
        RepeatedInBag(inputs, sorted[i]);
        return Some(sorted[i]);
      }
      i := i + 1;
    }
    duplicate := None;
  }

  method CheckOutputs(outputs: seq<SpendOutput>, network: Network) returns (e: Option<ProposalError>)
    ensures e.None? <==> OutputsOk(outputs, network)
    ensures e.Some? ==> FirstBad(outputs, network, e.value)
  {
    var i := 0;
    while i < |outputs|
      invariant 0 <= i <= |outputs|
      invariant OutputsOk(outputs[..i], network)
    {
      var output := outputs[i];
      if network !in output.address.networks {
        assert Defect(outputs[i], network, InvalidAddress);
        return Some(InvalidAddress);
      }
      if output.amount < output.address.dust {
        assert Defect(outputs[i], network, DustOutput(output.amount, output.address.dust));
        return Some(DustOutput(output.amount, output.address.dust));
      }
      i := i + 1;
    }
    assert outputs[..i] == outputs;
    e := None;
  }

  /** Accepts exactly the proposable spends, with the wallet's policy. */
  method TryNew(id: SessionId, w: W.WalletState, proposedBy: UserId, spend: SpendSpec)
      returns (r: Result<S.Policy, ProposalError>)
    ensures r.Success? <==> Proposable(w, spend)
    ensures r.Success? ==> Snapshots(r.value, id, w, proposedBy, spend)
    ensures r.Failure? ==> Justified(w, spend, r.error)
  {
    var status := W.StatusOf(w.events);
    if status != W.Active { return Failure(WalletNotActive(status)); }
    if |spend.inputs| == 0 { return Failure(EmptyInputs); }
    if |spend.inputs| > MAX_SPEND_INPUTS { return Failure(TooManyInputs(|spend.inputs|)); }
    var duplicate := FindDuplicate(spend.inputs);
    if duplicate.Some? { return Failure(DuplicateInput(duplicate.value)); }
    if |spend.outputs| == 0 { return Failure(EmptyOutputs); }
    if |spend.outputs| > MAX_SPEND_OUTPUTS { return Failure(TooManyOutputs(|spend.outputs|)); }
    var refused := CheckOutputs(spend.outputs, w.policy.network);
    if refused.Some? { return Failure(refused.value); }
    if spend.change.Some? && spend.change.value.amount < P2WSH_DUST {
      return Failure(DustOutput(spend.change.value.amount, P2WSH_DUST));
    }
    if spend.fee > MAX_FEE_SATS { return Failure(FeeExceedsMax(spend.fee)); }
    SnapshotMeaning(id, w, proposedBy, spend);
    r := Success(SnapshotOf(id, w, proposedBy, spend));
  }

  // --- the snapshot agrees with the wallet ---

  lemma {:induction false} SubmissionIsHeld(subs: seq<W.Submission>, user: UserId)
    requires W.SubmissionOf(subs, user).Some?
    ensures KeystoreFingerprint(W.SubmissionOf(subs, user).value) in Fingerprints(W.Keys(subs))
  {
    if subs[0].user == user {
      assert Fingerprints(W.Keys(subs))[0] == KeystoreFingerprint(subs[0].key);
    } else {
      SubmissionIsHeld(subs[1..], user);
      assert W.Keys(subs)[1..] == W.Keys(subs[1..]);
    }
  }

  /** A session proposed on an active wallet hydrates without a violation, and
      every fingerprint the wallet resolves for a participant is in its policy:
      a signer bound through the wallet is never unknown to the session. */
  lemma SnapshotIsValid(id: SessionId, w: W.WalletState, proposedBy: UserId, spend: SpendSpec)
    requires WH.Sound(w) && W.StatusOf(w.events) == W.Active
    ensures S.ValidPolicy(SnapshotOf(id, w, proposedBy, spend))
    ensures S.Hydrated(S.Proposed(SnapshotOf(id, w, proposedBy, spend)))
    ensures forall user :: W.KeystoreFingerprintOf(w, user).Some? ==>
              W.KeystoreFingerprintOf(w, user).value in SnapshotOf(id, w, proposedBy, spend).keystores
    ensures forall user :: user in w.policy.participants ==> W.KeystoreFingerprintOf(w, user).Some?
  {
    var p := SnapshotOf(id, w, proposedBy, spend);
    var subs := W.Submissions(w.events);
    hide S.Hydrated;
    forall user | W.KeystoreFingerprintOf(w, user).Some?
      ensures W.KeystoreFingerprintOf(w, user).value in p.keystores
    {
      SubmissionIsHeld(subs, user);
    }
    WH.ActiveIffComplete(w);
    SH.ProposedIsHydrated(p);
    forall user | user in w.policy.participants ensures W.KeystoreFingerprintOf(w, user).Some? {
      WH.SubmittedIffUser(subs, user);
    }
  }
}
