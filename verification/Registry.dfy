/** The stored wallets under concurrent use cases. Every request loads a wallet,
    runs a command on its copy, and stores the new events only if no event was
    stored meanwhile and no other wallet holds the new descriptor fingerprint. */
module Registry {
  import opened Foundation
  import opened Documents
  import opened Descriptors
  import opened WalletModel
  import opened WalletHistory
  import WalletEntity

  type Stored = map<WalletId, WalletState>

  datatype Reply =
    | Returned(wallet: WalletState)
    | Refused(error: WalletError)
    | NotPersisted

  predicate Holds(w: WalletState, f: DescriptorFingerprint) { DescriptorFingerprintOf(w) == Some(f) }

  /** UNIQUE(descriptor_fingerprint): no other row holds it. */
  predicate Free(wallets: Stored, id: WalletId, f: DescriptorFingerprint) {
    forall other :: other in wallets && other != id ==> !Holds(wallets[other], f)
  }

  /** The store takes the events `t` adds to `snapshot` when their sequence
      numbers are free and the fingerprint, if any, is. */
  predicate Accepts(wallets: Stored, snapshot: WalletState, t: WalletState) {
    && snapshot.policy.id in wallets
    && |wallets[snapshot.policy.id].events| == |snapshot.events|
    && (DescriptorFingerprintOf(t).Some? ==>
          Free(wallets, snapshot.policy.id, DescriptorFingerprintOf(t).value))
  }

  function Persist(wallets: Stored, snapshot: WalletState, t: WalletState): Stored
    requires Accepts(wallets, snapshot, t) && |snapshot.events| <= |t.events|
  {
    var id := snapshot.policy.id;
    wallets[id := wallets[id].(events := wallets[id].events + t.events[|snapshot.events|..])]
  }

  ghost predicate Held(wallets: Stored, f: DescriptorFingerprint) {
    exists id :: id in wallets && Holds(wallets[id], f)
  }

  /** The row a lookup by fingerprint returns. */
  ghost function Holder(wallets: Stored, f: DescriptorFingerprint): (id: WalletId)
    requires Held(wallets, f)
    ensures id in wallets && Holds(wallets[id], f)
  {
    var id :| id in wallets && Holds(wallets[id], f);
    id
  }

  /** A refused update of a wallet that would have become active answers with
      the other wallet that holds its fingerprint, if there is one. */
  ghost function ResolveCollision(wallets: Stored, t: WalletState): Reply {
    match DescriptorFingerprintOf(t)
    case None => NotPersisted
    case Some(f) =>
      if Held(wallets, f) && Holder(wallets, f) != t.policy.id then Returned(wallets[Holder(wallets, f)])
      else NotPersisted
  }

  lemma ApplyGrows(w: WalletState, c: WalletCommand)
    ensures |w.events| <= |Apply(w, c).0.events|
  {
    ApplyAppends(w, c);
  }

  /** One use case on a loaded wallet: what is stored and what is answered. */
  ghost function Serve(wallets: Stored, snapshot: WalletState, c: WalletCommand): (Stored, Reply) {
    var (t, outcome) := Apply(snapshot, c);
    match outcome
    case Failed(e) => (wallets, Refused(e))
    case AlreadyApplied => (wallets, Returned(snapshot))
    case Executed =>
      ApplyGrows(snapshot, c);
      if Accepts(wallets, snapshot, t) then (Persist(wallets, snapshot, t), Returned(t))
      else (wallets, if c.DoAddKeystore? then ResolveCollision(wallets, t) else NotPersisted)
  }

  /** A use case on a wallet as it is stored: an executed command is stored, whole,
      unless it would give the wallet a descriptor that another stored wallet has;
      anything else is answered and stores nothing. */
  lemma ServesUpToDate(wallets: Stored, id: WalletId, c: WalletCommand)
    requires id in wallets && wallets[id].policy.id == id
    ensures var (t, outcome) := Apply(wallets[id], c);
            var (after, reply) := Serve(wallets, wallets[id], c);
            var clash := exists other :: other in wallets && other != id && DescriptorFingerprintOf(t).Some?
                                         && DescriptorFingerprintOf(wallets[other]) == DescriptorFingerprintOf(t);
            && (outcome.Failed? ==> (after, reply) == (wallets, Refused(outcome.error)))
            && (outcome.AlreadyApplied? ==> (after, reply) == (wallets, Returned(wallets[id])))
            && (outcome.Executed? && !clash ==> (after, reply) == (wallets[id := t], Returned(t)))
            && (outcome.Executed? && clash ==>
                  && after == wallets && (c.DoAddKeystore? || reply == NotPersisted)
                  && (reply == NotPersisted
                      || (reply.Returned? && DescriptorFingerprintOf(reply.wallet) == DescriptorFingerprintOf(t))))
  {
    var (t, outcome) := Apply(wallets[id], c);
    ApplyAppends(wallets[id], c);
    assert wallets[id].events + t.events[|wallets[id].events|..] == t.events by {
      assert wallets[id].events <= t.events;
    }
    if outcome.Executed? && DescriptorFingerprintOf(t).Some? {
      var f := DescriptorFingerprintOf(t).value;
      assert Free(wallets, id, f) <==> !exists other :: other in wallets && other != id && Holds(wallets[other], f);
    }
  }

  // --- the interleaved system ---

  datatype Request = Loaded(snapshot: WalletState) | Answered(reply: Reply)

  datatype Registry = Registry(network: Network, wallets: Stored, requests: seq<Request>)

  datatype Step =
    | Register(policy: WalletPolicy)
    | Load(id: WalletId)
    | Act(request: nat, command: WalletCommand)

  /** A step that is not possible changes nothing. */
  ghost function Effect(r: Registry, step: Step): Registry {
    match step
    case Register(p) =>
      if ValidWalletPolicy(p) && |p.participants| < U32_LIMIT && p.network == r.network && p.id !in r.wallets
      then r.(wallets := r.wallets[p.id := New(p)]) else r
    case Load(id) =>
      if id in r.wallets then r.(requests := r.requests + [Loaded(r.wallets[id])]) else r
    case Act(k, c) =>
      if k < |r.requests| && r.requests[k].Loaded? then
        var (wallets, reply) := Serve(r.wallets, r.requests[k].snapshot, c);
        r.(wallets := wallets, requests := r.requests[k := Answered(reply)])
      else r
  }

  ghost function Play(r: Registry, steps: seq<Step>): Registry
    decreases |steps|
  {
    if steps == [] then r else Play(Effect(r, steps[0]), steps[1..])
  }

  function Empty(network: Network): Registry { Registry(network, map[], []) }

  /** A registration is stored exactly when its policy is valid, on the platform's
      network and under a free id: as the log of that registration, and nothing else
      changes. A load opens one request on the wallet as it is stored. */
  lemma OpeningSteps(r: Registry, p: WalletPolicy, id: WalletId)
    ensures var ok := 0 < p.threshold <= |p.participants| && Distinct(p.participants)
                      && |p.participants| < 0x1_0000_0000 && p.network == r.network && p.id !in r.wallets;
            Effect(r, Register(p))
            == if ok then Registry(r.network, r.wallets[p.id := WalletState(p, [Registered(p)])], r.requests) else r
    ensures Effect(r, Load(id))
            == if id in r.wallets then Registry(r.network, r.wallets, r.requests + [Loaded(r.wallets[id])]) else r
  {
  }

  /** Acting on an open request serves it once and closes it with its answer. */
  lemma ActAnswers(r: Registry, k: nat, c: WalletCommand)
    ensures var open := k < |r.requests| && r.requests[k].Loaded?;
            && (!open ==> Effect(r, Act(k, c)) == r)
            && (open ==>
                  exists after, reply ::
                    && (after, reply) == Serve(r.wallets, r.requests[k].snapshot, c)
                    && Effect(r, Act(k, c)) == Registry(r.network, after, r.requests[k := Answered(reply)]))
  {
    if k < |r.requests| && r.requests[k].Loaded? {
      var (after, reply) := Serve(r.wallets, r.requests[k].snapshot, c);
    }
  }

  // --- invariants ---

  /** The log of some single-threaded run of wallet commands. */
  ghost predicate Serial(w: WalletState) {
    exists cs: seq<WalletCommand> :: w == Run(New(w.policy), cs)
  }

  ghost predicate WalletOk(network: Network, id: WalletId, w: WalletState) {
    && w.policy.id == id && w.policy.network == network
    && ValidWalletPolicy(w.policy) && |w.policy.participants| < U32_LIMIT
    && Serial(w)
  }

  ghost predicate OnePerFingerprint(wallets: Stored) {
    forall a, b :: (a in wallets && b in wallets && DescriptorFingerprintOf(wallets[a]).Some?
                    && DescriptorFingerprintOf(wallets[a]) == DescriptorFingerprintOf(wallets[b])) ==> a == b
  }

  ghost predicate SnapshotOk(wallets: Stored, w: WalletState) {
    && w.policy.id in wallets
    && w.policy == wallets[w.policy.id].policy
    && w.events <= wallets[w.policy.id].events
  }

  ghost predicate Consistent(r: Registry) {
    && (forall id :: id in r.wallets ==> WalletOk(r.network, id, r.wallets[id]))
    && OnePerFingerprint(r.wallets)
    && forall k :: 0 <= k < |r.requests| && r.requests[k].Loaded? ==> SnapshotOk(r.wallets, r.requests[k].snapshot)
  }

  lemma StoredIsSound(network: Network, id: WalletId, w: WalletState)
    requires WalletOk(network, id, w)
    ensures Sound(w)
  {
    var cs :| w == Run(New(w.policy), cs);
    NewIsSound(w.policy);
    RunKeepsSound(New(w.policy), cs);
  }

  lemma {:induction false} RunSnoc(w: WalletState, cs: seq<WalletCommand>, c: WalletCommand)
    ensures Run(w, cs + [c]) == Apply(Run(w, cs), c).0
    decreases |cs|
  {
    if cs == [] {
      assert cs + [c] == [c];
      assert [c][1..] == [];
    } else {
      assert (cs + [c])[1..] == cs[1..] + [c];
      RunSnoc(Apply(w, cs[0]).0, cs[1..], c);
    }
  }

  lemma SerialStep(network: Network, id: WalletId, w: WalletState, c: WalletCommand)
    requires WalletOk(network, id, w)
    ensures WalletOk(network, id, Apply(w, c).0)
  {
    var cs :| w == Run(New(w.policy), cs);
    RunSnoc(New(w.policy), cs, c);
    ApplyAppends(w, c);
    assert Apply(w, c).0 == Run(New(w.policy), cs + [c]);
  }

  /** Equal versions are equal logs, so what is stored is the command's result. */
  lemma PersistStores(wallets: Stored, snapshot: WalletState, c: WalletCommand)
    requires SnapshotOk(wallets, snapshot) && Apply(snapshot, c).1.Executed?
    requires Accepts(wallets, snapshot, Apply(snapshot, c).0)
    ensures snapshot == wallets[snapshot.policy.id]
    ensures |snapshot.events| <= |Apply(snapshot, c).0.events|
    ensures Persist(wallets, snapshot, Apply(snapshot, c).0)
            == wallets[snapshot.policy.id := Apply(snapshot, c).0]
  {
    ApplyAppends(snapshot, c);
    var t := Apply(snapshot, c).0;
    assert snapshot.events == wallets[snapshot.policy.id].events;
    assert snapshot.events + t.events[|snapshot.events|..] == t.events;
  }

  /** What a use case can do to the store: nothing, or one command on one wallet. */
  lemma ServeMeaning(wallets: Stored, snapshot: WalletState, c: WalletCommand)
    requires SnapshotOk(wallets, snapshot)
    ensures var (after, reply) := Serve(wallets, snapshot, c);
            || after == wallets
            || (&& snapshot == wallets[snapshot.policy.id]
                && Apply(snapshot, c).1.Executed?
                && Accepts(wallets, snapshot, Apply(snapshot, c).0)
                && after == wallets[snapshot.policy.id := Apply(snapshot, c).0]
                && reply == Returned(Apply(snapshot, c).0))
  {
    var (t, outcome) := Apply(snapshot, c);
    if outcome.Executed? && Accepts(wallets, snapshot, t) { PersistStores(wallets, snapshot, c); }
  }

  lemma StoreKeepsUnique(wallets: Stored, id: WalletId, t: WalletState)
    requires OnePerFingerprint(wallets)
    requires DescriptorFingerprintOf(t).Some? ==> Free(wallets, id, DescriptorFingerprintOf(t).value)
    ensures OnePerFingerprint(wallets[id := t])
  {
  }

  lemma StepKeepsConsistent(r: Registry, step: Step)
    requires Consistent(r)
    ensures Consistent(Effect(r, step))
  {
    match step
    case Register(p) =>
      assert New(p) == Run(New(p), []);
      assert DescriptorFingerprintOf(New(p)).None? by {
        assert ActivationOf(New(p).events[1..]) == None;
      }
    case Load(id) =>
    case Act(k, c) =>
      if k < |r.requests| && r.requests[k].Loaded? { ServedKeepsConsistent(r, k, c); }
  }

  lemma ServedKeepsConsistent(r: Registry, k: nat, c: WalletCommand)
    requires Consistent(r) && k < |r.requests| && r.requests[k].Loaded?
    ensures Consistent(Effect(r, Act(k, c)))
  {
    var snapshot := r.requests[k].snapshot;
    var id := snapshot.policy.id;
    ServeMeaning(r.wallets, snapshot, c);
    if Effect(r, Act(k, c)).wallets != r.wallets {
      SerialStep(r.network, id, snapshot, c);
      ApplyAppends(snapshot, c);
      StoreKeepsUnique(r.wallets, id, Apply(snapshot, c).0);
    }
  }

  /** Whatever the interleaving: every stored log is the log of a single-threaded
      run, and no two stored wallets share a descriptor fingerprint. */
  lemma {:induction false} PlayKeepsConsistent(r: Registry, steps: seq<Step>)
    requires Consistent(r)
    ensures Consistent(Play(r, steps))
    decreases |steps|
  {
    if steps != [] {
      StepKeepsConsistent(r, steps[0]);
      PlayKeepsConsistent(Effect(r, steps[0]), steps[1..]);
    }
  }

  /** One active wallet per policy content: in every reachable registry two
      different wallets never have the same network, threshold and keystores. */
  lemma OneWalletPerContent(network: Network, steps: seq<Step>, a: WalletId, b: WalletId)
    requires a in Play(Empty(network), steps).wallets && b in Play(Empty(network), steps).wallets
    requires var v, w := Play(Empty(network), steps).wallets[a], Play(Empty(network), steps).wallets[b];
             && StatusOf(v.events) == Active && StatusOf(w.events) == Active
             && v.policy.threshold == w.policy.threshold
             && (forall k :: k in KeystoresOf(v) <==> k in KeystoresOf(w))
             && TextIdentifies(KeystoresOf(v))
    ensures a == b
  {
    var r := Play(Empty(network), steps);
    PlayKeepsConsistent(Empty(network), steps);
    PlayKeepsNetwork(Empty(network), steps);
    StoredIsSound(network, a, r.wallets[a]);
    StoredIsSound(network, b, r.wallets[b]);
    SameKeysSameFingerprint(r.wallets[a], r.wallets[b]);
    ActiveDescriptor(r.wallets[a]);
  }

  lemma {:induction false} PlayKeepsNetwork(r: Registry, steps: seq<Step>)
    ensures Play(r, steps).network == r.network
    decreases |steps|
  {
    if steps != [] { PlayKeepsNetwork(Effect(r, steps[0]), steps[1..]); }
  }

  // --- what never changes again ---

  lemma StepKeepsWallet(r: Registry, step: Step, id: WalletId)
    requires Consistent(r) && id in r.wallets
    ensures id in Effect(r, step).wallets
    ensures Effect(r, step).wallets[id].policy == r.wallets[id].policy
    ensures r.wallets[id].events <= Effect(r, step).wallets[id].events
    ensures StatusOf(r.wallets[id].events) != CollectingKeystores ==> Effect(r, step).wallets[id] == r.wallets[id]
  {
    if step.Act? && step.request < |r.requests| && r.requests[step.request].Loaded? {
      var snapshot := r.requests[step.request].snapshot;
      ServeMeaning(r.wallets, snapshot, step.command);
      ApplyAppends(snapshot, step.command);
      if snapshot.policy.id == id && Effect(r, step).wallets[id] != r.wallets[id]
         && StatusOf(r.wallets[id].events) != CollectingKeystores {
        StoredIsSound(r.network, id, r.wallets[id]);
        TerminalIsFinal(r.wallets[id], step.command);
      }
    }
  }

  lemma {:induction false} ActiveIsFrozen(r: Registry, steps: seq<Step>, id: WalletId)
    requires Consistent(r) && id in r.wallets && StatusOf(r.wallets[id].events) == Active
    ensures id in Play(r, steps).wallets && Play(r, steps).wallets[id] == r.wallets[id]
    decreases |steps|
  {
    if steps != [] {
      StepKeepsWallet(r, steps[0], id);
      StepKeepsConsistent(r, steps[0]);
      ActiveIsFrozen(Effect(r, steps[0]), steps[1..], id);
    }
  }

  /** A use case on a copy that is out of date stores nothing. It is answered as the
      copy is, and where its command would have taken effect the answer is another
      stored wallet if it is a submission that completes a copy of that wallet, and
      a failed update in every other case. */
  lemma ServesLate(wallets: Stored, snapshot: WalletState, c: WalletCommand)
    requires OnePerFingerprint(wallets)
    requires snapshot.policy.id in wallets ==> |wallets[snapshot.policy.id].events| != |snapshot.events|
    ensures var (t, outcome) := Apply(snapshot, c);
            var (after, reply) := Serve(wallets, snapshot, c);
            && after == wallets
            && (outcome.Failed? ==> reply == Refused(outcome.error))
            && (outcome.AlreadyApplied? ==> reply == Returned(snapshot))
            && (outcome.Executed? ==>
                  && (forall other :: CompletesCopy(wallets, t, c, other) ==> reply == Returned(wallets[other]))
                  && ((forall other :: !CompletesCopy(wallets, t, c, other)) ==> reply == NotPersisted))
  {
    var (t, outcome) := Apply(snapshot, c);
    ApplyAppends(snapshot, c);
    forall other | CompletesCopy(wallets, t, c, other)
      ensures Held(wallets, DescriptorFingerprintOf(t).value)
      ensures Holder(wallets, DescriptorFingerprintOf(t).value) == other
    {
      HolderIsUnique(wallets, other, DescriptorFingerprintOf(t).value);
    }
  }

  /** The submission gives `t` the descriptor of another stored wallet. */
  ghost predicate CompletesCopy(wallets: Stored, t: WalletState, c: WalletCommand, other: WalletId) {
    && c.DoAddKeystore? && other in wallets && other != t.policy.id && DescriptorFingerprintOf(t).Some?
    && DescriptorFingerprintOf(wallets[other]) == DescriptorFingerprintOf(t)
  }

  // --- importing the same wallet twice ---

  /** The submission would complete the wallet as a second copy of `other`. */
  ghost predicate Duplicates(t: WalletState, other: WalletState) {
    && other.policy.id != t.policy.id
    && StatusOf(other.events) == Active && StatusOf(t.events) == Active
    && other.policy.network == t.policy.network && other.policy.threshold == t.policy.threshold
    && forall k :: k in KeystoresOf(t) <==> k in KeystoresOf(other)
  }

  /** Keys are identified by their text, which has no delimiter in it. */
  ghost predicate PlainKeys(v: WalletState, w: WalletState) {
    TextIdentifies(KeystoresOf(v) + KeystoresOf(w)) && CleanKeys(KeystoresOf(v)) && CleanKeys(KeystoresOf(w))
  }

  lemma DuplicatesIffSameFingerprint(t: WalletState, other: WalletState)
    requires Sound(t) && Sound(other) && other.policy.id != t.policy.id && PlainKeys(other, t)
    ensures Duplicates(t, other) <==>
            DescriptorFingerprintOf(t).Some? && DescriptorFingerprintOf(t) == DescriptorFingerprintOf(other)
  {
    ActiveDescriptor(t);
    ActiveDescriptor(other);
    if StatusOf(t.events) == Active && StatusOf(other.events) == Active { FingerprintIsIdentity(other, t); }
  }

  lemma HolderIsUnique(wallets: Stored, id: WalletId, f: DescriptorFingerprint)
    requires OnePerFingerprint(wallets) && id in wallets && Holds(wallets[id], f)
    ensures Held(wallets, f) && Holder(wallets, f) == id
  {
  }

  /** A submission on an up-to-date wallet is answered with another wallet
      exactly when it would complete a second wallet with that wallet's network,
      threshold and keystores; nothing is stored then. */
  lemma AnsweredWithTheFirst(r: Registry, id: WalletId, key: Key, user: UserId, first: WalletId)
    requires Consistent(r) && id in r.wallets && first in r.wallets && first != id
    requires PlainKeys(r.wallets[first], Apply(r.wallets[id], DoAddKeystore(key, user)).0)
    ensures var c := DoAddKeystore(key, user);
            var (t, outcome) := Apply(r.wallets[id], c);
            var (after, reply) := Serve(r.wallets, r.wallets[id], c);
            && (reply == Returned(r.wallets[first]) <==> outcome.Executed? && Duplicates(t, r.wallets[first]))
            && (reply == Returned(r.wallets[first]) ==> after == r.wallets)
  {
    var c := DoAddKeystore(key, user);
    var w := r.wallets[id];
    var (t, outcome) := Apply(w, c);
    ApplyAppends(w, c);
    SerialStep(r.network, id, w, c);
    StoredIsSound(r.network, id, t);
    StoredIsSound(r.network, first, r.wallets[first]);
    DuplicatesIffSameFingerprint(t, r.wallets[first]);
    if outcome.Executed? && Duplicates(t, r.wallets[first]) {
      HolderIsUnique(r.wallets, first, DescriptorFingerprintOf(t).value);
      assert Holds(r.wallets[first], DescriptorFingerprintOf(t).value);
    }
  }

  lemma {:induction false} StoredStays(r: Registry, steps: seq<Step>, id: WalletId)
    requires Consistent(r) && id in r.wallets
    ensures id in Play(r, steps).wallets
    decreases |steps|
  {
    if steps != [] {
      StepKeepsWallet(r, steps[0], id);
      StepKeepsConsistent(r, steps[0]);
      StoredStays(Effect(r, steps[0]), steps[1..], id);
    }
  }

  /** Importing twice is an idempotent find: after any further traffic the same
      submission is answered with the same wallet, and stores nothing, exactly as
      long as it would still complete a second copy of it; in particular as long as
      the losing wallet's own log has not moved. */
  lemma RetryFindsTheSame(r: Registry, id: WalletId, key: Key, user: UserId, first: WalletId, steps: seq<Step>)
    requires Consistent(r) && id in r.wallets && first in r.wallets && first != id
    requires PlainKeys(r.wallets[first], Apply(r.wallets[id], DoAddKeystore(key, user)).0)
    requires Serve(r.wallets, r.wallets[id], DoAddKeystore(key, user)).1 == Returned(r.wallets[first])
    ensures id in Play(r, steps).wallets
    ensures var later, c := Play(r, steps).wallets, DoAddKeystore(key, user);
            var (t, outcome) := Apply(later[id], c);
            && (PlainKeys(r.wallets[first], t) ==>
                  (Serve(later, later[id], c) == (later, Returned(r.wallets[first]))
                   <==> outcome.Executed? && Duplicates(t, r.wallets[first])))
            && (later[id] == r.wallets[id] ==> Serve(later, later[id], c) == (later, Returned(r.wallets[first])))
  {
    var later := Play(r, steps);
    AnsweredWithTheFirst(r, id, key, user, first);
    PlayKeepsConsistent(r, steps);
    StoredStays(r, steps, id);
    ActiveIsFrozen(r, steps, first);
    if PlainKeys(r.wallets[first], Apply(later.wallets[id], DoAddKeystore(key, user)).0) {
      AnsweredWithTheFirst(later, id, key, user, first);
    }
  }

  // --- the use cases as the application runs them ---

  class WalletRepo {
    var wallets: Stored

    constructor ()
      ensures wallets == map[]
    {
      wallets := map[];
    }

    method FindById(id: WalletId) returns (w: Option<WalletState>)
      ensures w == if id in wallets then Some(wallets[id]) else None
    {
      w := if id in wallets then Some(wallets[id]) else None;
    }

    method FindByFingerprint(f: DescriptorFingerprint) returns (w: Option<WalletState>)
      requires OnePerFingerprint(wallets)
      ensures w == if Held(wallets, f) then Some(wallets[Holder(wallets, f)]) else None
    {
      if id :| id in wallets && Holds(wallets[id], f) {
        HolderIsUnique(wallets, id, f);
        return Some(wallets[id]);
      }
      w := None;
    }

    method Update(snapshot: WalletState, t: WalletState) returns (stored: bool)
      requires |snapshot.events| <= |t.events|
      modifies this
      ensures stored <==> Accepts(old(wallets), snapshot, t)
      ensures wallets == if stored then Persist(old(wallets), snapshot, t) else old(wallets)
    {
      stored := Accepts(wallets, snapshot, t);
      if stored { wallets := Persist(wallets, snapshot, t); }
    }
  }

  /** Rows are stored under the wallet's own id. */
  ghost predicate Keyed(wallets: Stored) {
    forall id :: id in wallets ==> wallets[id].policy.id == id
  }

  method ResolveFingerprintCollision(repo: WalletRepo, t: WalletState) returns (reply: Reply)
    requires OnePerFingerprint(repo.wallets) && Keyed(repo.wallets)
    ensures reply == ResolveCollision(repo.wallets, t)
  {
    var f := DescriptorFingerprintOf(t);
    if f.Some? {
      var existing := repo.FindByFingerprint(f.value);
      if existing.Some? && existing.value.policy.id != t.policy.id { return Returned(existing.value); }
    }
    reply := NotPersisted;
  }

  /** `submit_keystore` from a loaded wallet on. */
  method SubmitKeystore(repo: WalletRepo, loaded: WalletEntity.Wallet, key: Key, user: UserId) returns (reply: Reply)
    requires OnePerFingerprint(repo.wallets) && Keyed(repo.wallets)
    modifies repo, loaded
    ensures (repo.wallets, reply) == Serve(old(repo.wallets), old(loaded.State()), DoAddKeystore(key, user))
  {
    var snapshot := loaded.State();
    ApplyGrows(snapshot, DoAddKeystore(key, user));
    var outcome := loaded.AddKeystore(key, user);
    match outcome {
      case Failed(e) => return Refused(e);
      case AlreadyApplied => return Returned(loaded.State());
      case Executed =>
    }
    var stored := repo.Update(snapshot, loaded.State());
    if !stored {
      reply := ResolveFingerprintCollision(repo, loaded.State());
    } else {
      reply := Returned(loaded.State());
    }
  }
}
