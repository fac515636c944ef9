/** What each wallet command answers and appends, exactly; who holds what, read
    off the log; and which keystore a participant is bound to. */
module WalletAnswers {
  import opened Foundation
  import opened Documents
  import opened Descriptors
  import opened WalletModel
  import opened WalletHistory

  // --- status and holdings, read off the log ---

  lemma {:induction false} StatusMeaning(es: WalletLog)
    ensures StatusOf(es) == CollectingKeystores
            <==> forall i :: 0 <= i < |es| ==> !es[i].Activated? && !es[i].Cancelled?
    ensures forall i :: 0 <= i < |es| && (forall j :: i < j < |es| ==> !es[j].Activated? && !es[j].Cancelled?) ==>
              && (es[i].Activated? ==> StatusOf(es) == Active)
              && (es[i].Cancelled? ==> StatusOf(es) == CancelledStatus)
  {
    if es != [] {
      var n := |es| - 1;
      StatusMeaning(es[..n]);
      if !es[n].Activated? && !es[n].Cancelled? {
        assert forall i :: 0 <= i < n ==> es[..n][i] == es[i];
      }
    }
  }

  /** `user` submitted `key` and it was not withdrawn since. */
  ghost predicate Holds(es: WalletLog, user: UserId, key: Key) {
    exists i :: 0 <= i < |es| && es[i] == KeystoreAdded(key, user)
                && forall j :: i < j < |es| && es[j].KeystoreRemoved? ==> es[j].participant != user
  }

  lemma {:induction false} WithoutMeaning(subs: seq<Submission>, gone: UserId, s: Submission)
    ensures s in Without(subs, gone) <==> s in subs && s.user != gone
  {
    if subs != [] {
      var n := |subs| - 1;
      WithoutMeaning(subs[..n], gone, s);
      assert subs == subs[..n] + [subs[n]];
    }
  }

  lemma HoldsSnoc(es: WalletLog, n: nat, user: UserId, key: Key)
    requires n + 1 == |es|
    ensures Holds(es, user, key) <==>
            || es[n] == KeystoreAdded(key, user)
            || (Holds(es[..n], user, key) && !(es[n].KeystoreRemoved? && es[n].participant == user))
  {
    if es[n] != KeystoreAdded(key, user) && Holds(es, user, key) {
      var i :| 0 <= i < |es| && es[i] == KeystoreAdded(key, user)
               && forall j :: i < j < |es| && es[j].KeystoreRemoved? ==> es[j].participant != user;
      assert es[..n][i] == es[i] && forall j :: i < j < n ==> es[..n][j] == es[j];
    }
    if Holds(es[..n], user, key) && !(es[n].KeystoreRemoved? && es[n].participant == user) {
      var i :| 0 <= i < n && es[..n][i] == KeystoreAdded(key, user)
               && forall j :: i < j < n && es[..n][j].KeystoreRemoved? ==> es[..n][j].participant != user;
      assert es[i] == es[..n][i] && forall j :: i < j < n ==> es[j] == es[..n][j];
    }
  }

  /** The fold keeps exactly the submissions that were not withdrawn. */
  lemma {:induction false} SubmissionsMeaning(es: WalletLog, user: UserId, key: Key)
    ensures Submission(user, key) in Submissions(es) <==> Holds(es, user, key)
  {
    if es != [] {
      var n := |es| - 1;
      SubmissionsMeaning(es[..n], user, key);
      HoldsSnoc(es, n, user, key);
      if es[n].KeystoreRemoved? { WithoutMeaning(Submissions(es[..n]), es[n].participant, Submission(user, key)); }
    }
  }

  // --- the signer binding ---

  lemma {:induction false} FindsOwn(subs: seq<Submission>, i: nat)
    requires i < |subs| && Distinct(Users(subs))
    ensures SubmissionOf(subs, subs[i].user) == Some(subs[i].key)
  {
    if i > 0 {
      assert Users(subs)[0] != Users(subs)[i];
      assert Users(subs)[1..] == Users(subs[1..]);
      forall a, b | 0 <= a < b < |Users(subs[1..])| ensures Users(subs[1..])[a] != Users(subs[1..])[b] {
        assert Users(subs)[a + 1] != Users(subs)[b + 1];
      }
      FindsOwn(subs[1..], i - 1);
    }
  }

  /** A participant is bound to the origin of the key they hold, or, if it declares
      none, to the key's own fingerprint; who holds nothing is bound to nothing. */
  lemma BoundToOwnKey(w: WalletState, user: UserId)
    requires Sound(w)
    ensures forall key :: Holds(w.events, user, key) ==>
              KeystoreFingerprintOf(w, user)
              == Some(if key.origin.Some? then key.origin.value else key.body.fingerprint)
    ensures KeystoreFingerprintOf(w, user).Some? ==> exists key :: Holds(w.events, user, key)
  {
    var subs := Submissions(w.events);
    forall key | Holds(w.events, user, key)
      ensures KeystoreFingerprintOf(w, user)
              == Some(if key.origin.Some? then key.origin.value else key.body.fingerprint)
    {
      SubmissionsMeaning(w.events, user, key);
      var i :| 0 <= i < |subs| && subs[i] == Submission(user, key);
      FindsOwn(subs, i);
    }
    if KeystoreFingerprintOf(w, user).Some? {
      FirstSubmission(subs, user);
      SubmissionsMeaning(w.events, user, SubmissionOf(subs, user).value);
    }
  }

  /** Two participants are never bound to one keystore. */
  lemma BoundToOneUser(w: WalletState, u: UserId, v: UserId)
    requires Sound(w) && KeystoreFingerprintOf(w, u).Some?
    requires KeystoreFingerprintOf(w, u) == KeystoreFingerprintOf(w, v)
    ensures u == v
  {
    var subs := Submissions(w.events);
    FirstSubmission(subs, u);
    FirstSubmission(subs, v);
    var i :| 0 <= i < |subs| && subs[i] == Submission(u, SubmissionOf(subs, u).value);
    var j :| 0 <= j < |subs| && subs[j] == Submission(v, SubmissionOf(subs, v).value);
    var fps := Fingerprints(Keys(subs));
    assert fps[i] == fps[j];
    assert i == j;
  }

  // --- commands ---

  /** `user` holds some keystore. */
  ghost predicate HoldsAny(es: WalletLog, user: UserId) {
    exists key :: Holds(es, user, key)
  }

  lemma HoldingMeans(w: WalletState, user: UserId, key: Key)
    requires Sound(w)
    ensures SubmissionOf(Submissions(w.events), user) == Some(key) <==> Holds(w.events, user, key)
    ensures SubmissionOf(Submissions(w.events), user).Some? <==> HoldsAny(w.events, user)
  {
    var subs := Submissions(w.events);
    forall k ensures SubmissionOf(subs, user) == Some(k) <==> Holds(w.events, user, k) {
      SubmissionsMeaning(w.events, user, k);
      FirstSubmission(subs, user);
      if Holds(w.events, user, k) {
        var i :| 0 <= i < |subs| && subs[i] == Submission(user, k);
        FindsOwn(subs, i);
      }
    }
    if SubmissionOf(subs, user).Some? { assert Holds(w.events, user, SubmissionOf(subs, user).value); }
  }

  /** A submission: which check answers, in order, and the one or two events it
      appends; the last keystore activates the wallet in the same append. */
  lemma SubmissionAnswers(w: WalletState, key: Key, user: UserId)
    requires Sound(w)
    ensures var (t, outcome) := Apply(w, DoAddKeystore(key, user));
            var held := KeystoresOf(w);
            var last := |held| + 1 == |w.policy.participants|;
            var d := SortedMulti(w.policy.threshold, held + [key]);
            && outcome == (if Holds(w.events, user, key) then AlreadyApplied
                           else if StatusOf(w.events) == Active then Failed(AlreadyActive)
                           else if StatusOf(w.events) == CancelledStatus then Failed(WalletCancelled)
                           else if user !in w.policy.participants then Failed(NotAParticipant(user))
                           else if HoldsAny(w.events, user) then Failed(ParticipantAlreadySubmitted(user))
                           else if exists k :: k in held && KeystoreFingerprint(k) == KeystoreFingerprint(key) then
                             Failed(DuplicateKeystore(KeystoreFingerprint(key)))
                           else if last && d.Failure? then Failed(DescriptorRefused(d.error))
                           else Executed)
            && t == (if outcome != Executed then w
                     else w.(events := w.events + [KeystoreAdded(key, user)]
                                       + if last then [Activated(d.value, FingerprintOf(d.value, w.policy.network))]
                                         else []))
  {
    HoldingMeans(w, user, key);
    var held := KeystoresOf(w);
    if StatusOf(w.events) == CollectingKeystores {
      CompletesExactly(|Submissions(w.events)|, |w.policy.participants|);
    }
    if KeystoreFingerprint(key) in Fingerprints(held) {
      var i :| 0 <= i < |held| && Fingerprints(held)[i] == KeystoreFingerprint(key);
      assert held[i] in held;
    }
    if k :| k in held && KeystoreFingerprint(k) == KeystoreFingerprint(key) {
      var i :| 0 <= i < |held| && held[i] == k;
      assert Fingerprints(held)[i] == KeystoreFingerprint(key);
    }
    assert w.events + [KeystoreAdded(key, user)] + [] == w.events + [KeystoreAdded(key, user)];
  }

  /** A withdrawal: its event names the keystore that was held, whose it was and who
      withdrew it. */
  lemma WithdrawalAnswers(w: WalletState, participant: UserId, user: UserId)
    requires Sound(w)
    ensures var (t, outcome) := Apply(w, DoRemoveKeystore(participant, user));
            && outcome == (if StatusOf(w.events) == Active then Failed(AlreadyActive)
                           else if StatusOf(w.events) == CancelledStatus then Failed(WalletCancelled)
                           else if HoldsAny(w.events, participant) then Executed
                           else AlreadyApplied)
            && (outcome != Executed ==> t == w)
            && forall key :: outcome == Executed && Holds(w.events, participant, key) ==>
                 t == w.(events := w.events + [KeystoreRemoved(participant, key, user)])
  {
    forall key ensures SubmissionOf(Submissions(w.events), participant) == Some(key)
                       <==> Holds(w.events, participant, key) {
      HoldingMeans(w, participant, key);
    }
    HoldingMeans(w, participant, Key(None, KeyBody(0, 0, Fixed), "", true));
  }

  lemma CancellationAnswers(w: WalletState, user: UserId, why: string)
    requires Sound(w)
    ensures var (t, outcome) := Apply(w, DoCancel(user, why));
            && outcome == (match StatusOf(w.events)
                           case CollectingKeystores => Executed
                           case Active => Failed(CannotCancelActive)
                           case CancelledStatus => AlreadyApplied)
            && t == if outcome == Executed then w.(events := w.events + [Cancelled(user, why)]) else w
  {
    CancelledIffRecorded(w);
  }
}
