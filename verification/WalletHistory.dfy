/** Properties of every wallet over every run of commands. */
module WalletHistory {
  import opened Foundation
  import opened Documents
  import opened Sorting
  import opened Descriptors
  import opened WalletModel

  ghost predicate GoodSubmissions(p: WalletPolicy, subs: seq<Submission>) {
    && Distinct(Users(subs))
    && Distinct(Fingerprints(Keys(subs)))
    && forall i :: 0 <= i < |subs| ==> subs[i].user in p.participants
  }

  predicate Terminal(e: WalletEvent) { e.Activated? || e.Cancelled? }

  /** At most one terminal event, and then it is the newest. */
  ghost predicate TerminalLast(es: WalletLog) {
    forall i :: 0 <= i < |es| - 1 ==> !Terminal(es[i])
  }

  /** An active log ends with the keystore that completed the policy and, in the
      same append, the canonical descriptor of exactly the keystores held. */
  ghost predicate EndsActivated(w: WalletState) {
    var n := |w.events|;
    && n >= 2
    && w.events[n - 2].KeystoreAdded?
    && w.events[n - 1].Activated?
    && SortedMulti(w.policy.threshold, KeystoresOf(w)) == Success(w.events[n - 1].descriptor)
    && w.events[n - 1].fingerprint == FingerprintOf(w.events[n - 1].descriptor, w.policy.network)
  }

  /** What holds of a wallet after any run of commands. */
  ghost predicate Sound(w: WalletState) {
    && ValidWalletPolicy(w.policy) && |w.policy.participants| < U32_LIMIT
    && |w.events| > 0 && w.events[0] == Registered(w.policy)
    && (forall i :: 1 <= i < |w.events| ==> !w.events[i].Registered?)
    && TerminalLast(w.events)
    && GoodSubmissions(w.policy, Submissions(w.events))
    && (StatusOf(w.events) == Active ==>
          EndsActivated(w) && |Submissions(w.events)| == |w.policy.participants|)
    && (StatusOf(w.events) != Active ==> |Submissions(w.events)| < |w.policy.participants|)
  }

  lemma EventSnoc(es: WalletLog, e: WalletEvent)
    ensures StatusOf(es + [e])
            == if e.Activated? then Active else if e.Cancelled? then CancelledStatus else StatusOf(es)
    ensures Submissions(es + [e]) == if e.KeystoreAdded? then Submissions(es) + [Submission(e.submittedBy, e.key)]
                                     else if e.KeystoreRemoved? then Without(Submissions(es), e.participant)
                                     else Submissions(es)
  {
    assert (es + [e])[..|es|] == es;
  }

  lemma {:induction false} StatusIsTheLastEvent(es: WalletLog)
    requires TerminalLast(es)
    ensures StatusOf(es) == if es == [] then CollectingKeystores
                            else if es[|es| - 1].Activated? then Active
                            else if es[|es| - 1].Cancelled? then CancelledStatus
                            else CollectingKeystores
  {
    if es != [] {
      var init := es[..|es| - 1];
      forall i | 0 <= i < |init| - 1 ensures !Terminal(init[i]) { assert init[i] == es[i]; }
      StatusIsTheLastEvent(init);
      if init != [] { assert !Terminal(es[|es| - 2]); }
    }
  }

  lemma TerminalLastSnoc(es: WalletLog, e: WalletEvent)
    requires TerminalLast(es) && StatusOf(es) == CollectingKeystores
    ensures TerminalLast(es + [e])
  {
    StatusIsTheLastEvent(es);
  }

  lemma {:induction false} FingerprintsSnoc(keys: seq<Key>, key: Key)
    ensures Fingerprints(keys + [key]) == Fingerprints(keys) + [KeystoreFingerprint(key)]
  {
    var a, b := Fingerprints(keys + [key]), Fingerprints(keys) + [KeystoreFingerprint(key)];
    forall i | 0 <= i < |a| ensures a[i] == b[i] {}
  }

  lemma GoodSnoc(p: WalletPolicy, subs: seq<Submission>, s: Submission)
    ensures GoodSubmissions(p, subs + [s]) <==>
            GoodSubmissions(p, subs) && s.user in p.participants
            && s.user !in Users(subs) && KeystoreFingerprint(s.key) !in Fingerprints(Keys(subs))
  {
    var all := subs + [s];
    assert Users(all) == Users(subs) + [s.user];
    assert Keys(all) == Keys(subs) + [s.key];
    FingerprintsSnoc(Keys(subs), s.key);
    DistinctSnoc(Users(subs), s.user);
    DistinctSnoc(Fingerprints(Keys(subs)), KeystoreFingerprint(s.key));
    assert all[|subs|] == s;
    if GoodSubmissions(p, all) {
      forall i | 0 <= i < |subs| ensures subs[i].user in p.participants { assert all[i] == subs[i]; }
    }
  }

  lemma MentionsSnoc(subs: seq<Submission>, s: Submission)
    ensures forall u :: u in Users(subs + [s]) <==> u in Users(subs) || u == s.user
    ensures forall f :: f in Fingerprints(Keys(subs + [s])) <==>
                        f in Fingerprints(Keys(subs)) || f == KeystoreFingerprint(s.key)
  {
    assert Users(subs + [s]) == Users(subs) + [s.user];
    assert Keys(subs + [s]) == Keys(subs) + [s.key];
    FingerprintsSnoc(Keys(subs), s.key);
  }

  /** Removing a participant's keystore leaves the others exactly as they were. */
  lemma {:induction false} WithoutFacts(p: WalletPolicy, subs: seq<Submission>, user: UserId)
    requires GoodSubmissions(p, subs)
    ensures GoodSubmissions(p, Without(subs, user))
    ensures |Without(subs, user)| <= |subs|
    ensures forall u :: u in Users(Without(subs, user)) <==> u in Users(subs) && u != user
    ensures forall f :: f in Fingerprints(Keys(Without(subs, user))) ==> f in Fingerprints(Keys(subs))
  {
    if subs != [] {
      var front, last := subs[..|subs| - 1], subs[|subs| - 1];
      assert subs == front + [last];
      GoodSnoc(p, front, last);
      WithoutFacts(p, front, user);
      GoodSnoc(p, Without(front, user), last);
      MentionsSnoc(front, last);
      MentionsSnoc(Without(front, user), last);
    }
  }

  lemma SubmittedIffUser(subs: seq<Submission>, user: UserId)
    ensures SubmissionOf(subs, user).Some? <==> user in Users(subs)
    ensures SubmissionOf(subs, user).Some? ==> SubmissionOf(subs, user).value in Keys(subs)
  {
    FirstSubmission(subs, user);
    if SubmissionOf(subs, user).Some? {
      var i :| 0 <= i < |subs| && subs[i] == Submission(user, SubmissionOf(subs, user).value);
      assert Users(subs)[i] == user && Keys(subs)[i] == SubmissionOf(subs, user).value;
    }
  }

  lemma {:induction false} FirstSubmission(subs: seq<Submission>, user: UserId)
    ensures match SubmissionOf(subs, user)
            case None => forall i :: 0 <= i < |subs| ==> subs[i].user != user
            case Some(key) => Submission(user, key) in subs
  {
    if subs != [] { FirstSubmission(subs[1..], user); }
  }

  lemma NewIsSound(p: WalletPolicy)
    requires ValidWalletPolicy(p) && |p.participants| < U32_LIMIT
    ensures Sound(New(p))
  {
    EventSnoc([], Registered(p));
    assert [] + [Registered(p)] == New(p).events;
  }

  /** The completion test is the ideal one up to a multiple of 2^32. */
  lemma CompletesExactly(held: nat, participants: nat)
    ensures CompletesPolicy(held, participants) <==> (held + 1 - participants) % 0x1_0000_0000 == 0
    ensures held < participants < 0x1_0000_0000 ==>
              (CompletesPolicy(held, participants) <==> held + 1 == participants)
  {
  }

  /** A wallet still collecting: everything `Sound` says apart from the count. */
  ghost predicate OpenLog(w: WalletState) {
    && ValidWalletPolicy(w.policy) && |w.policy.participants| < U32_LIMIT
    && |w.events| > 0 && w.events[0] == Registered(w.policy)
    && (forall i :: 1 <= i < |w.events| ==> !w.events[i].Registered?)
    && TerminalLast(w.events)
    && GoodSubmissions(w.policy, Submissions(w.events))
    && StatusOf(w.events) == CollectingKeystores
  }

  lemma AddedIsOpen(w: WalletState, key: Key, user: UserId)
    requires Sound(w) && AddKeystore(w, key, user).1.Executed?
    ensures OpenLog(w.(events := w.events + [KeystoreAdded(key, user)]))
    ensures Submissions(w.events + [KeystoreAdded(key, user)]) == Submissions(w.events) + [Submission(user, key)]
  {
    var subs := Submissions(w.events);
    EventSnoc(w.events, KeystoreAdded(key, user));
    SubmittedIffUser(subs, user);
    GoodSnoc(w.policy, subs, Submission(user, key));
    TerminalLastSnoc(w.events, KeystoreAdded(key, user));
  }

  lemma ActivationIsSound(w: WalletState, d: Descriptor)
    requires OpenLog(w) && |w.events| >= 2 && w.events[|w.events| - 1].KeystoreAdded?
    requires |Submissions(w.events)| == |w.policy.participants|
    requires SortedMulti(w.policy.threshold, KeystoresOf(w)) == Success(d)
    ensures Sound(w.(events := w.events + [Activated(d, FingerprintOf(d, w.policy.network))]))
  {
    var e := Activated(d, FingerprintOf(d, w.policy.network));
    EventSnoc(w.events, e);
    TerminalLastSnoc(w.events, e);
  }

  lemma AddKeepsSound(w: WalletState, key: Key, user: UserId)
    requires Sound(w)
    ensures Sound(AddKeystore(w, key, user).0)
  {
    if AddKeystore(w, key, user).1.Executed? {
      var subs := Submissions(w.events);
      var open := w.(events := w.events + [KeystoreAdded(key, user)]);
      AddedIsOpen(w, key, user);
      CompletesExactly(|subs|, |w.policy.participants|);
      if |subs| + 1 == |w.policy.participants| {
        assert Keys(subs + [Submission(user, key)]) == Keys(subs) + [key];
        ActivationIsSound(open, SortedMulti(w.policy.threshold, Keys(subs) + [key]).value);
      }
    }
  }

  lemma RemoveKeepsSound(w: WalletState, participant: UserId, user: UserId)
    requires Sound(w)
    ensures Sound(RemoveKeystore(w, participant, user).0)
  {
    var (t, outcome) := RemoveKeystore(w, participant, user);
    if outcome.Executed? {
      var e := t.events[|w.events|];
      EventSnoc(w.events, e);
      TerminalLastSnoc(w.events, e);
      WithoutFacts(w.policy, Submissions(w.events), participant);
    }
  }

  lemma CancelKeepsSound(w: WalletState, user: UserId, why: string)
    requires Sound(w)
    ensures Sound(Cancel(w, user, why).0)
  {
    EventSnoc(w.events, Cancelled(user, why));
    if Cancel(w, user, why).1.Executed? { TerminalLastSnoc(w.events, Cancelled(user, why)); }
  }

  lemma CommandKeepsSound(w: WalletState, c: WalletCommand)
    requires Sound(w)
    ensures Sound(Apply(w, c).0)
  {
    match c
    case DoAddKeystore(key, user) => AddKeepsSound(w, key, user);
    case DoRemoveKeystore(participant, user) => RemoveKeepsSound(w, participant, user);
    case DoCancel(user, why) => CancelKeepsSound(w, user, why);
  }

  /** Every run of commands on a registered wallet keeps the invariant. */
  lemma {:induction false} RunKeepsSound(w: WalletState, cs: seq<WalletCommand>)
    requires Sound(w)
    ensures Sound(Run(w, cs))
    decreases |cs|
  {
    if cs != [] {
      CommandKeepsSound(w, cs[0]);
      RunKeepsSound(Apply(w, cs[0]).0, cs[1..]);
    }
  }

  lemma ApplyAppends(w: WalletState, c: WalletCommand)
    ensures w.events <= Apply(w, c).0.events && Apply(w, c).0.policy == w.policy
    ensures Apply(w, c).1 != Executed ==> Apply(w, c).0 == w
    ensures Apply(w, c).1 == Executed ==> |Apply(w, c).0.events| > |w.events|
  {
  }

  /** The sources' `unreachable!` cannot be reached, from any log whatever. */
  lemma {:induction false} CancelledWasRecorded(es: WalletLog)
    requires StatusOf(es) == CancelledStatus
    ensures HasCancelled(es)
  {
    var n := |es| - 1;
    if !es[n].Cancelled? {
      CancelledWasRecorded(es[..n]);
      var i :| 0 <= i < n && es[..n][i].Cancelled?;
      assert es[i].Cancelled?;
    }
  }

  /** Terminal statuses are final: no command changes such a wallet. */
  lemma TerminalIsFinal(w: WalletState, c: WalletCommand)
    requires Sound(w) && StatusOf(w.events) != CollectingKeystores
    ensures Apply(w, c).0 == w
  {
    if StatusOf(w.events) == CancelledStatus { CancelledWasRecorded(w.events); }
  }

  lemma {:induction false} TerminalStays(w: WalletState, cs: seq<WalletCommand>)
    requires Sound(w) && StatusOf(w.events) != CollectingKeystores
    ensures Run(w, cs) == w
    decreases |cs|
  {
    if cs != [] {
      TerminalIsFinal(w, cs[0]);
      TerminalStays(w, cs[1..]);
    }
  }

  // --- what each command does to who holds what ---

  lemma {:induction false} HoldingsSnoc(subs: seq<Submission>, s: Submission, u: UserId)
    ensures SubmissionOf(subs + [s], u)
            == if SubmissionOf(subs, u).Some? then SubmissionOf(subs, u) else if u == s.user then Some(s.key) else None
  {
    if subs == [] {
      assert ([] + [s])[1..] == [];
    } else {
      assert (subs + [s])[1..] == subs[1..] + [s];
      HoldingsSnoc(subs[1..], s, u);
    }
  }

  lemma {:induction false} HoldingsWithout(subs: seq<Submission>, gone: UserId, u: UserId)
    ensures SubmissionOf(Without(subs, gone), u) == if u == gone then None else SubmissionOf(subs, u)
  {
    if subs != [] {
      var front, last := subs[..|subs| - 1], subs[|subs| - 1];
      HoldingsWithout(front, gone, u);
      HoldingsSnoc(front, last, u);
      HoldingsSnoc(Without(front, gone), last, u);
      assert subs == front + [last];
    }
  }

  function Holding(w: WalletState, u: UserId): Option<Key> { SubmissionOf(Submissions(w.events), u) }

  /** A submission takes effect exactly for a participant who holds nothing, while
      the wallet is collecting, with a fingerprint nobody holds and, when it is the
      last one, keys that form a descriptor; then that participant holds that key
      and nobody else's holding changes. */
  lemma SubmissionTakesEffectIff(w: WalletState, key: Key, user: UserId, u: UserId)
    requires Sound(w)
    ensures var (t, outcome) := AddKeystore(w, key, user);
            && (outcome.Executed? <==>
                && StatusOf(w.events) == CollectingKeystores
                && user in w.policy.participants
                && Holding(w, user).None?
                && KeystoreFingerprint(key) !in Fingerprints(KeystoresOf(w))
                && (|KeystoresOf(w)| + 1 == |w.policy.participants| ==>
                      SortedMulti(w.policy.threshold, KeystoresOf(w) + [key]).Success?))
            && (outcome.AlreadyApplied? <==> Holding(w, user) == Some(key))
            && Holding(t, u) == (if outcome.Executed? && u == user then Some(key) else Holding(w, u))
  {
    if StatusOf(w.events) == CollectingKeystores {
      CompletesExactly(|Submissions(w.events)|, |w.policy.participants|);
    }
    if AddKeystore(w, key, user).1.Executed? { SubmissionHolds(w, key, user, u); }
  }

  /** What an accepted submission leaves behind. */
  lemma AfterSubmission(w: WalletState, key: Key, user: UserId)
    requires AddKeystore(w, key, user).1.Executed?
    ensures var t := AddKeystore(w, key, user).0;
            && Submissions(t.events) == Submissions(w.events) + [Submission(user, key)]
            && StatusOf(t.events) == if CompletesPolicy(|Submissions(w.events)|, |w.policy.participants|) then Active
                                     else StatusOf(w.events)
  {
    var t := AddKeystore(w, key, user).0;
    var added := w.events + [KeystoreAdded(key, user)];
    EventSnoc(w.events, KeystoreAdded(key, user));
    if t.events != added { EventSnoc(added, t.events[|added|]); }
  }

  lemma SubmissionHolds(w: WalletState, key: Key, user: UserId, u: UserId)
    requires AddKeystore(w, key, user).1.Executed?
    ensures Holding(AddKeystore(w, key, user).0, u)
            == if Holding(w, u).Some? then Holding(w, u) else if u == user then Some(key) else None
  {
    AfterSubmission(w, key, user);
    HoldingsSnoc(Submissions(w.events), Submission(user, key), u);
  }

  /** A withdrawal takes effect exactly on a held keystore of a wallet still
      collecting; afterwards that participant holds nothing, everybody else what
      they held, so a replacement can be submitted. */
  lemma WithdrawalTakesEffectIff(w: WalletState, participant: UserId, user: UserId, u: UserId)
    ensures var (t, outcome) := RemoveKeystore(w, participant, user);
            && (outcome.Executed? <==> StatusOf(w.events) == CollectingKeystores && Holding(w, participant).Some?)
            && (outcome.AlreadyApplied? <==> StatusOf(w.events) == CollectingKeystores && Holding(w, participant).None?)
            && Holding(t, u) == (if outcome.Executed? && u == participant then None else Holding(w, u))
  {
    var (t, outcome) := RemoveKeystore(w, participant, user);
    if outcome.Executed? {
      EventSnoc(w.events, t.events[|w.events|]);
      HoldingsWithout(Submissions(w.events), participant, u);
    }
  }

  /** A cancellation takes effect exactly while the wallet is collecting, repeats
      are recognised exactly on cancelled wallets, and nobody's holding changes. */
  lemma CancellationTakesEffectIff(w: WalletState, user: UserId, why: string)
    requires Sound(w)
    ensures var (t, outcome) := Cancel(w, user, why);
            && (outcome.Executed? <==> StatusOf(w.events) == CollectingKeystores)
            && (outcome.AlreadyApplied? <==> StatusOf(w.events) == CancelledStatus)
            && (outcome.Executed? ==> StatusOf(t.events) == CancelledStatus)
            && Submissions(t.events) == Submissions(w.events)
  {
    EventSnoc(w.events, Cancelled(user, why));
    CancelledIffRecorded(w);
  }

  lemma CancelledIffRecorded(w: WalletState)
    requires Sound(w)
    ensures HasCancelled(w.events) <==> StatusOf(w.events) == CancelledStatus
  {
    if StatusOf(w.events) == CancelledStatus { CancelledWasRecorded(w.events); }
    if HasCancelled(w.events) {
      var i :| 0 <= i < |w.events| && w.events[i].Cancelled?;
      assert Terminal(w.events[i]);
      StatusIsTheLastEvent(w.events);
    }
  }

  // --- active means complete ---

  lemma {:induction false} DistinctCardinality<T>(s: seq<T>)
    requires Distinct(s)
    ensures |set x | x in s| == |s|
  {
    if s != [] {
      var front, last := s[..|s| - 1], s[|s| - 1];
      assert s == front + [last];
      DistinctSnoc(front, last);
      DistinctCardinality(front);
      assert (set x | x in s) == (set x | x in front) + {last};
    }
  }

  /** Active exactly when every participant holds a keystore. */
  lemma ActiveIffComplete(w: WalletState)
    requires Sound(w)
    ensures StatusOf(w.events) == Active <==>
            forall u :: u in w.policy.participants ==> u in Users(Submissions(w.events))
  {
    var held := Users(Submissions(w.events));
    var h, p := set u | u in held, set u | u in w.policy.participants;
    DistinctCardinality(held);
    DistinctCardinality(w.policy.participants);
    forall u | u in h ensures u in p {
      var i :| 0 <= i < |held| && held[i] == u;
      assert Submissions(w.events)[i].user == u;
    }
    SubsetOfEqualSize(h, p);
    if StatusOf(w.events) == Active {
      assert |h| == |held| == |p|;
      forall u | u in w.policy.participants ensures u in held { assert u in p && u in h; }
    }
    if forall u :: u in w.policy.participants ==> u in held {
      assert p <= h;
      SubsetOfEqualSize(p, h);
    }
  }

  lemma SubsetOfEqualSize<T>(a: set<T>, b: set<T>)
    requires a <= b
    ensures |a| <= |b|
    ensures |a| == |b| ==> a == b
  {
    assert b == a + (b - a);
    assert |b| == |a| + |b - a|;
  }

  // --- history independence ---

  lemma {:induction false} FirstActivation(es: WalletLog)
    requires TerminalLast(es)
    ensures ActivationOf(es) == if es != [] && es[|es| - 1].Activated? then Some(es[|es| - 1]) else None
  {
    if es != [] {
      if |es| > 1 { assert !Terminal(es[0]); }
      forall i | 0 <= i < |es[1..]| - 1 ensures !Terminal(es[1..][i]) { assert es[1..][i] == es[i + 1]; }
      FirstActivation(es[1..]);
    }
  }

  /** What an active wallet's descriptor and fingerprint are. */
  lemma ActiveDescriptor(w: WalletState)
    requires Sound(w)
    ensures StatusOf(w.events) == Active <==> DescriptorOf(w).Some?
    ensures StatusOf(w.events) == Active <==> DescriptorFingerprintOf(w).Some?
    ensures StatusOf(w.events) == Active ==>
              && SortedMulti(w.policy.threshold, KeystoresOf(w)) == Success(DescriptorOf(w).value)
              && DescriptorFingerprintOf(w) == Some(FingerprintOf(DescriptorOf(w).value, w.policy.network))
  {
    FirstActivation(w.events);
    StatusIsTheLastEvent(w.events);
  }

  lemma DistinctKeys(keys: seq<Key>)
    requires Distinct(Fingerprints(keys))
    ensures Distinct(keys)
  {
    forall i, j | 0 <= i < j < |keys| ensures keys[i] != keys[j] {
      assert Fingerprints(keys)[i] != Fingerprints(keys)[j];
    }
  }

  lemma SameSetSameBag<T>(a: seq<T>, b: seq<T>)
    requires Distinct(a) && Distinct(b) && forall x :: x in a <==> x in b
    ensures multiset(a) == multiset(b)
  {
    DistinctByCount(a);
    DistinctByCount(b);
    forall x ensures multiset(a)[x] == multiset(b)[x] {
      assert x in a <==> multiset(a)[x] > 0;
      assert x in b <==> multiset(b)[x] > 0;
    }
  }

  /** Two active wallets with the same network, threshold and set of keystores
      have the same descriptor and the same fingerprint, whatever orders,
      removals and resubmissions led there. */
  lemma HistoryIndependent(p: WalletPolicy, cs: seq<WalletCommand>, q: WalletPolicy, ds: seq<WalletCommand>)
    requires ValidWalletPolicy(p) && |p.participants| < U32_LIMIT
    requires ValidWalletPolicy(q) && |q.participants| < U32_LIMIT
    requires StatusOf(Run(New(p), cs).events) == Active && StatusOf(Run(New(q), ds).events) == Active
    requires p.network == q.network && p.threshold == q.threshold
    requires forall k :: k in KeystoresOf(Run(New(p), cs)) <==> k in KeystoresOf(Run(New(q), ds))
    requires TextIdentifies(KeystoresOf(Run(New(p), cs)))
    ensures DescriptorOf(Run(New(p), cs)) == DescriptorOf(Run(New(q), ds))
    ensures DescriptorFingerprintOf(Run(New(p), cs)) == DescriptorFingerprintOf(Run(New(q), ds))
  {
    NewIsSound(p);
    NewIsSound(q);
    RunKeepsSound(New(p), cs);
    RunKeepsSound(New(q), ds);
    RunKeepsPolicy(New(p), cs);
    RunKeepsPolicy(New(q), ds);
    SameKeysSameFingerprint(Run(New(p), cs), Run(New(q), ds));
  }

  lemma {:induction false} RunKeepsPolicy(w: WalletState, cs: seq<WalletCommand>)
    ensures Run(w, cs).policy == w.policy && w.events <= Run(w, cs).events
    decreases |cs|
  {
    if cs != [] {
      ApplyAppends(w, cs[0]);
      RunKeepsPolicy(Apply(w, cs[0]).0, cs[1..]);
    }
  }

  lemma SameKeysSameFingerprint(v: WalletState, w: WalletState)
    requires Sound(v) && Sound(w) && StatusOf(v.events) == Active && StatusOf(w.events) == Active
    requires v.policy.network == w.policy.network && v.policy.threshold == w.policy.threshold
    requires forall k :: k in KeystoresOf(v) <==> k in KeystoresOf(w)
    requires TextIdentifies(KeystoresOf(v))
    ensures DescriptorOf(v) == DescriptorOf(w)
    ensures DescriptorFingerprintOf(v) == DescriptorFingerprintOf(w)
  {
    ActiveDescriptor(v);
    ActiveDescriptor(w);
    DistinctKeys(KeystoresOf(v));
    DistinctKeys(KeystoresOf(w));
    SameSetSameBag(KeystoresOf(v), KeystoresOf(w));
    OrderIndependent(v.policy.threshold, KeystoresOf(v), KeystoresOf(w));
  }

  /** The fingerprint is the wallet's identity: equal exactly when network,
      threshold and set of keystores are equal. */
  lemma FingerprintIsIdentity(v: WalletState, w: WalletState)
    requires Sound(v) && Sound(w) && StatusOf(v.events) == Active && StatusOf(w.events) == Active
    requires TextIdentifies(KeystoresOf(v) + KeystoresOf(w))
    requires CleanKeys(KeystoresOf(v)) && CleanKeys(KeystoresOf(w))
    ensures DescriptorFingerprintOf(v) == DescriptorFingerprintOf(w) <==>
            && v.policy.network == w.policy.network
            && v.policy.threshold == w.policy.threshold
            && forall k :: k in KeystoresOf(v) <==> k in KeystoresOf(w)
  {
    ActiveDescriptor(v);
    ActiveDescriptor(w);
    var a, b := KeystoresOf(v), KeystoresOf(w);
    assert TextIdentifies(a) by {
      forall x, y | x in a && y in a && x.text == y.text ensures x == y { assert x in a + b && y in a + b; }
    }
    if && v.policy.network == w.policy.network
       && v.policy.threshold == w.policy.threshold
       && (forall k :: k in a <==> k in b) {
      SameKeysSameFingerprint(v, w);
    }
    if DescriptorFingerprintOf(v) == DescriptorFingerprintOf(w) {
      var d, e := DescriptorOf(v).value, DescriptorOf(w).value;
      SortedHasSameKeys(a);
      SortedHasSameKeys(b);
      FingerprintIdentifies(d, v.policy.network, e, w.policy.network);
      SameTextsSameKeys(d.keys, e.keys, a + b);
    }
  }

  lemma SortedHasSameKeys(keys: seq<Key>)
    ensures forall k :: k in Sort(keys, KeyLe) <==> k in keys
    ensures CleanKeys(keys) ==> CleanKeys(Sort(keys, KeyLe))
  {
    KeyOrder();
    SortSorts(keys, KeyLe);
    SameElements(Sort(keys, KeyLe), keys);
    if CleanKeys(keys) {
      forall i | 0 <= i < |Sort(keys, KeyLe)| ensures Clean(Sort(keys, KeyLe)[i].text) {
        assert Sort(keys, KeyLe)[i] in keys;
      }
    }
  }

  lemma SameTextsSameKeys(a: seq<Key>, b: seq<Key>, all: seq<Key>)
    requires Texts(a) == Texts(b) && TextIdentifies(all)
    requires forall k :: k in a ==> k in all
    requires forall k :: k in b ==> k in all
    ensures forall k :: k in a <==> k in b
  {
    assert |a| == |Texts(a)| == |Texts(b)| == |b|;
    forall i | 0 <= i < |a| ensures a[i] == b[i] {
      assert a[i].text == Texts(a)[i] == Texts(b)[i] == b[i].text;
      assert a[i] in all && b[i] in all;
    }
  }
}
