/** The wallet as a value: its event log, the folds over it, and every command
    as a function. */
module WalletModel {
  import opened Foundation
  import opened Documents
  import opened Descriptors

  datatype WalletPolicy = WalletPolicy(id: WalletId, network: Network, threshold: U32, participants: seq<UserId>)

  datatype WalletEvent =
    | Registered(policy: WalletPolicy)
    | KeystoreAdded(key: Key, submittedBy: UserId)
    | KeystoreRemoved(participant: UserId, removed: Key, removedBy: UserId)
    | Activated(descriptor: Descriptor, fingerprint: DescriptorFingerprint)
    | Cancelled(cancelledBy: UserId, why: string)

  type WalletLog = seq<WalletEvent>

  datatype WalletStatus = CollectingKeystores | Active | CancelledStatus

  datatype WalletState = WalletState(policy: WalletPolicy, events: WalletLog)

  datatype Submission = Submission(user: UserId, key: Key)

  // --- folds ---

  function StatusOf(es: WalletLog): WalletStatus {
    if es == [] then CollectingKeystores
    else match es[|es| - 1]
      case Activated(_, _) => Active
      case Cancelled(_, _) => CancelledStatus
      case _ => StatusOf(es[..|es| - 1])
  }

  /** `retain(|(p, _)| p != user)` */
  function Without(subs: seq<Submission>, user: UserId): seq<Submission> {
    if subs == [] then []
    else
      var last := subs[|subs| - 1];
      var front := Without(subs[..|subs| - 1], user);
      if last.user == user then front else front + [last]
  }

  /** Keystores currently held, in submission order. */
  function Submissions(es: WalletLog): seq<Submission> {
    if es == [] then []
    else
      var before := Submissions(es[..|es| - 1]);
      match es[|es| - 1]
      case KeystoreAdded(key, user) => before + [Submission(user, key)]
      case KeystoreRemoved(user, _, _) => Without(before, user)
      case _ => before
  }

  function Keys(subs: seq<Submission>): (r: seq<Key>)
    ensures |r| == |subs| && forall i :: 0 <= i < |r| ==> r[i] == subs[i].key
  {
    seq(|subs|, i requires 0 <= i < |subs| => subs[i].key)
  }

  function Users(subs: seq<Submission>): (r: seq<UserId>)
    ensures |r| == |subs| && forall i :: 0 <= i < |r| ==> r[i] == subs[i].user
  {
    seq(|subs|, i requires 0 <= i < |subs| => subs[i].user)
  }

  function KeystoresOf(w: WalletState): seq<Key> { Keys(Submissions(w.events)) }

  /** The first submission of a user, if any. */
  function SubmissionOf(subs: seq<Submission>, user: UserId): Option<Key> {
    if subs == [] then None
    else if subs[0].user == user then Some(subs[0].key)
    else SubmissionOf(subs[1..], user)
  }

  function KeystoreFingerprintOf(w: WalletState, user: UserId): Option<Fingerprint> {
    match SubmissionOf(Submissions(w.events), user)
    case None => None
    case Some(key) => Some(KeystoreFingerprint(key))
  }

  /** The first activation in the log. */
  function ActivationOf(es: WalletLog): Option<WalletEvent> {
    if es == [] then None
    else if es[0].Activated? then Some(es[0])
    else ActivationOf(es[1..])
  }

  function DescriptorOf(w: WalletState): Option<Descriptor> {
    match ActivationOf(w.events)
    case Some(Activated(d, _)) => Some(d)
    case _ => None
  }

  function DescriptorFingerprintOf(w: WalletState): Option<DescriptorFingerprint> {
    match ActivationOf(w.events)
    case Some(Activated(_, f)) => Some(f)
    case _ => None
  }

  // --- commands ---

  datatype WalletError =
    | InvalidPolicy
    | DuplicateParticipant(user: UserId)
    | AlreadyActive
    | WalletCancelled
    | NotAParticipant(user: UserId)
    | ParticipantAlreadySubmitted(user: UserId)
    | DuplicateKeystore(keystore: Fingerprint)
    | DescriptorRefused(error: DescriptorError)
    | CannotCancelActive

  datatype Outcome = Executed | AlreadyApplied | Failed(error: WalletError)

  /** The completion test, in the machine arithmetic the counts are kept in. */
  predicate CompletesPolicy(held: nat, participants: nat) {
    AsU32(AsU32(held) + 1) == AsU32(participants)
  }

  function AddKeystore(w: WalletState, key: Key, user: UserId): (WalletState, Outcome) {
    var subs := Submissions(w.events);
    if SubmissionOf(subs, user) == Some(key) then (w, AlreadyApplied)
    else if StatusOf(w.events) == Active then (w, Failed(AlreadyActive))
    else if StatusOf(w.events) == CancelledStatus then (w, Failed(WalletCancelled))
    else if user !in w.policy.participants then (w, Failed(NotAParticipant(user)))
    else if SubmissionOf(subs, user).Some? then (w, Failed(ParticipantAlreadySubmitted(user)))
    else if KeystoreFingerprint(key) in Fingerprints(Keys(subs)) then
      (w, Failed(DuplicateKeystore(KeystoreFingerprint(key))))
    else
      var added := w.events + [KeystoreAdded(key, user)];
      if CompletesPolicy(|subs|, |w.policy.participants|) then
        match SortedMulti(w.policy.threshold, Keys(subs) + [key])
        case Failure(e) => (w, Failed(DescriptorRefused(e)))
        case Success(d) => (w.(events := added + [Activated(d, FingerprintOf(d, w.policy.network))]), Executed)
      else (w.(events := added), Executed)
  }

  function RemoveKeystore(w: WalletState, participant: UserId, user: UserId): (WalletState, Outcome) {
    if StatusOf(w.events) == Active then (w, Failed(AlreadyActive))
    else if StatusOf(w.events) == CancelledStatus then (w, Failed(WalletCancelled))
    else match SubmissionOf(Submissions(w.events), participant)
      case None => (w, AlreadyApplied)
      case Some(key) => (w.(events := w.events + [KeystoreRemoved(participant, key, user)]), Executed)
  }

  predicate HasCancelled(es: WalletLog) {
    exists i :: 0 <= i < |es| && es[i].Cancelled?
  }

  /** The last branch is the sources' `unreachable!`. */
  function Cancel(w: WalletState, user: UserId, why: string): (WalletState, Outcome) {
    if HasCancelled(w.events) then (w, AlreadyApplied)
    else match StatusOf(w.events)
      case CollectingKeystores => (w.(events := w.events + [Cancelled(user, why)]), Executed)
      case Active => (w, Failed(CannotCancelActive))
      case CancelledStatus => (w, Failed(WalletCancelled))
  }

  datatype WalletCommand =
    | DoAddKeystore(key: Key, user: UserId)
    | DoRemoveKeystore(participant: UserId, user: UserId)
    | DoCancel(user: UserId, why: string)

  function Apply(w: WalletState, c: WalletCommand): (WalletState, Outcome) {
    match c
    case DoAddKeystore(key, user) => AddKeystore(w, key, user)
    case DoRemoveKeystore(participant, user) => RemoveKeystore(w, participant, user)
    case DoCancel(user, why) => Cancel(w, user, why)
  }

  function Run(w: WalletState, cs: seq<WalletCommand>): WalletState
    decreases |cs|
  {
    if cs == [] then w else Run(Apply(w, cs[0]).0, cs[1..])
  }

  ghost predicate ValidWalletPolicy(p: WalletPolicy) {
    && 0 < p.threshold <= |p.participants|
    && Distinct(p.participants)
  }

  function New(p: WalletPolicy): WalletState { WalletState(p, [Registered(p)]) }

  /** Registration accepts exactly the valid policies. */
  method NewWallet(p: WalletPolicy) returns (r: Result<WalletState, WalletError>)
    ensures r.Success? <==> ValidWalletPolicy(p)
    ensures r.Success? ==> r.value == New(p)
    ensures r == Failure(InvalidPolicy) <==> !(0 < p.threshold <= |p.participants|)
    ensures r.Failure? && r.error != InvalidPolicy ==>
              exists i :: 0 <= i < |p.participants| && r.error == DuplicateParticipant(p.participants[i])
                          && p.participants[i] in p.participants[..i] && Distinct(p.participants[..i])
  {
    if |p.participants| == 0 || p.threshold == 0 || p.threshold > |p.participants| {
      return Failure(InvalidPolicy);
    }
    var i := 0;
    while i < |p.participants|
      invariant 0 <= i <= |p.participants|
      invariant Distinct(p.participants[..i])
    {
      if p.participants[i] in p.participants[..i] {
        ghost var j :| 0 <= j < i && p.participants[j] == p.participants[i];
        return Failure(DuplicateParticipant(p.participants[i]));
      }
      DistinctSnoc(p.participants[..i], p.participants[i]);
      assert p.participants[..i + 1] == p.participants[..i] + [p.participants[i]];
      i := i + 1;
    }
    assert p.participants[..i] == p.participants;
    r := Success(New(p));
  }
}
