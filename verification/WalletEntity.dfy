/** The wallet entity as an object whose commands append to its log. Every
    method is proved to compute the function of the same name in `WalletModel`. */
module WalletEntity {
  import opened Foundation
  import opened Documents
  import opened Descriptors
  import opened WalletModel
  import opened WalletHistory

  class Wallet {
    const policy: WalletPolicy
    var events: WalletLog

    function State(): WalletState
      reads this
    {
      WalletState(policy, events)
    }

    constructor (w: WalletState)
      ensures State() == w
    {
      policy := w.policy;
      events := w.events;
    }

    /** The oldest-to-newest fold of the lifecycle status. */
    method CurrentStatus() returns (status: WalletStatus)
      ensures status == StatusOf(events)
    {
      status := CollectingKeystores;
      var i := 0;
      while i < |events|
        invariant 0 <= i <= |events|
        invariant status == StatusOf(events[..i])
      {
        assert events[..i + 1][..i] == events[..i];
        match events[i] {
          case Activated(_, _) => status := Active;
          case Cancelled(_, _) => status := CancelledStatus;
          case _ =>
        }
        i := i + 1;
      }
      assert events[..i] == events;
    }

    method CurrentSubmissions() returns (subs: seq<Submission>)
      ensures subs == Submissions(events)
    {
      subs := [];
      var i := 0;
      while i < |events|
        invariant 0 <= i <= |events|
        invariant subs == Submissions(events[..i])
      {
        assert events[..i + 1][..i] == events[..i];
        match events[i] {
          case KeystoreAdded(key, user) => subs := subs + [Submission(user, key)];
          case KeystoreRemoved(user, _, _) => subs := Without(subs, user);
          case _ =>
        }
        i := i + 1;
      }
      assert events[..i] == events;
    }

    method AddKeystore(key: Key, user: UserId) returns (outcome: Outcome)
      modifies this
      ensures (State(), outcome) == WalletModel.AddKeystore(old(State()), key, user)
    {
      var subs := CurrentSubmissions();
      var existing := SubmissionOf(subs, user);
      if existing == Some(key) { return AlreadyApplied; }
      var status := CurrentStatus();
      match status {
        case CollectingKeystores =>
        case Active => return Failed(AlreadyActive);
        case CancelledStatus => return Failed(WalletCancelled);
      }
      if user !in policy.participants { return Failed(NotAParticipant(user)); }
      if existing.Some? { return Failed(ParticipantAlreadySubmitted(user)); }
      var fp := KeystoreFingerprint(key);
      if fp in Fingerprints(Keys(subs)) { return Failed(DuplicateKeystore(fp)); }
      var activation: Option<WalletEvent> := None;
      if CompletesPolicy(|subs|, |policy.participants|) {
        var built := SortedMulti(policy.threshold, Keys(subs) + [key]);
        match built {
          case Failure(e) => return Failed(DescriptorRefused(e));
          case Success(d) => activation := Some(Activated(d, FingerprintOf(d, policy.network)));
        }
      }
      events := events + [KeystoreAdded(key, user)];
      if activation.Some? { events := events + [activation.value]; }
      outcome := Executed;
    }

    method RemoveKeystore(participant: UserId, user: UserId) returns (outcome: Outcome)
      modifies this
      ensures (State(), outcome) == WalletModel.RemoveKeystore(old(State()), participant, user)
    {
      var status := CurrentStatus();
      match status {
        case CollectingKeystores =>
        case Active => return Failed(AlreadyActive);
        case CancelledStatus => return Failed(WalletCancelled);
      }
      var subs := CurrentSubmissions();
      match SubmissionOf(subs, participant) {
        case None => outcome := AlreadyApplied;
        case Some(key) =>
          events := events + [KeystoreRemoved(participant, key, user)];
          outcome := Executed;
      }
    }

    /** The branch the sources mark unreachable is proved dead. */
    method Cancel(user: UserId, why: string) returns (outcome: Outcome)
      modifies this
      ensures (State(), outcome) == WalletModel.Cancel(old(State()), user, why)
    {
      var i := |events|;
      while i > 0
        invariant 0 <= i <= |events|
        invariant forall j :: i <= j < |events| ==> !events[j].Cancelled?
      {
        i := i - 1;
        if events[i].Cancelled? { return AlreadyApplied; }
      }
      var status := CurrentStatus();
      match status {
        case CollectingKeystores =>
        case Active => return Failed(CannotCancelActive);
        case CancelledStatus =>
          CancelledWasRecorded(events);
          assert false;
      }
      events := events + [Cancelled(user, why)];
      outcome := Executed;
    }
  }

  /** Loading a wallet: the newest registration names the policy. */
  method TryFromEvents(es: WalletLog) returns (w: Option<Wallet>)
    ensures w.None? <==> forall i :: 0 <= i < |es| ==> !es[i].Registered?
    ensures w.Some? ==> fresh(w.value) && w.value.State().events == es
                        && exists i :: 0 <= i < |es| && es[i] == Registered(w.value.policy)
                                       && forall j :: i < j < |es| ==> !es[j].Registered?
  {
    var policy: Option<WalletPolicy> := None;
    ghost var at := 0;
    var i := 0;
    while i < |es|
      invariant 0 <= i <= |es|
      invariant policy.None? ==> forall j :: 0 <= j < i ==> !es[j].Registered?
      invariant policy.Some? ==> 0 <= at < i && es[at] == Registered(policy.value)
                                 && forall j :: at < j < i ==> !es[j].Registered?
    {
      if es[i].Registered? {
        policy := Some(es[i].policy);
        at := i;
      }
      i := i + 1;
    }
    match policy {
      case None => w := None;
      case Some(p) =>
        var entity := new Wallet(WalletState(p, es));
        w := Some(entity);
    }
  }
}
