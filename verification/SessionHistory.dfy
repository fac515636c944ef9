/** Properties of every session over every run of commands: hydration is a
    round trip, repeated delivery changes nothing, and user and chain
    causality never mix. */
module SessionHistory {
  import opened Foundation
  import opened Documents
  import opened Sorting
  import opened SessionModel

  // --- scans over concatenated logs ---

  lemma {:induction false} StatusScanConcat(a: Log, b: Log)
    ensures StatusScan(a + b) == if StatusScan(b).Some? then StatusScan(b) else StatusScan(a)
    decreases |b|
  {
    if b == [] {
      assert a + b == a;
    } else {
      assert (a + b)[..|a + b| - 1] == a + b[..|b| - 1];
      StatusScanConcat(a, b[..|b| - 1]);
    }
  }

  lemma {:induction false} ScanConcat(a: Log, b: Log, p: Pattern, r: Pattern)
    ensures Scan(a + b, p, r) == if Scan(b, p, r) != Exhausted then Scan(b, p, r) else Scan(a, p, r)
    decreases |b|
  {
    if b == [] {
      assert a + b == a;
    } else {
      assert (a + b)[..|a + b| - 1] == a + b[..|b| - 1];
      ScanConcat(a, b[..|b| - 1], p, r);
    }
  }

  lemma {:induction false} ReplayConcat(a: Log, b: Log)
    ensures LatestPolicy(a + b) == Newest(LatestPolicy(a), LatestPolicy(b))
    ensures LatestUnsignedHash(a + b) == Newest(LatestUnsignedHash(a), LatestUnsignedHash(b))
    ensures LatestFinalization(a + b) == Newest(LatestFinalization(a), LatestFinalization(b))
    ensures SignaturesIn(a + b) == SignaturesIn(a) + SignaturesIn(b)
    decreases |b|
  {
    if b == [] {
      assert a + b == a;
    } else {
      assert (a + b)[..|a + b| - 1] == a + b[..|b| - 1];
      ReplayConcat(a, b[..|b| - 1]);
    }
  }

  /** What the guard decides: some event matches `applied`, and no newer event
      matches `resets`. */
  lemma {:induction false} GuardMeaning(es: Log, applied: Pattern, resets: Pattern)
    ensures AlreadyRecorded(es, applied, resets) <==>
            exists i :: 0 <= i < |es| && Matches(applied, es[i])
                        && forall j :: i < j < |es| ==> !Matches(resets, es[j])
  {
    hide Matches;
    if es != [] {
      var n := |es| - 1;
      var init := es[..n];
      GuardMeaning(init, applied, resets);
      if !Matches(applied, es[n]) {
        if AlreadyRecorded(init, applied, resets) && !Matches(resets, es[n]) {
          var i :| 0 <= i < n && Matches(applied, init[i])
                   && forall j :: i < j < n ==> !Matches(resets, init[j]);
          assert Matches(applied, es[i]);
          forall j | i < j < |es| ensures !Matches(resets, es[j]) {
            if j < n { assert es[j] == init[j]; }
          }
        }
        forall i | 0 <= i < |es| && Matches(applied, es[i])
                   && forall j :: i < j < |es| ==> !Matches(resets, es[j])
          ensures AlreadyRecorded(es, applied, resets)
        {
          assert i < n && es[i] == init[i];
          forall j | i < j < n ensures !Matches(resets, init[j]) { assert es[j] == init[j]; }
        }
      }
    }
  }

  lemma NoResetMeaning(es: Log, applied: Pattern)
    ensures AlreadyRecorded(es, applied, NoEvent) <==> exists i :: 0 <= i < |es| && Matches(applied, es[i])
  {
    GuardMeaning(es, applied, NoEvent);
  }

  // --- hydration closure ---

  lemma {:induction false} SignedIffRecorded(es: Log, fp: Fingerprint)
    ensures HasSigned(SignaturesIn(es), fp) <==> AlreadyRecorded(es, SignatureBy(fp), NoEvent)
  {
    if es != [] {
      var n := |es| - 1;
      SignedIffRecorded(es[..n], fp);
      var before, after := SignaturesIn(es[..n]), SignaturesIn(es);
      if HasSigned(before, fp) {
        var i :| 0 <= i < |before| && before[i].fingerprint == fp;
        assert after[i].fingerprint == fp;
      }
      if es[n].SignatureAdded? && es[n].fingerprint == fp {
        assert after[|before|].fingerprint == fp;
      }
      if HasSigned(after, fp) {
        var i :| 0 <= i < |after| && after[i].fingerprint == fp;
        assert i < |before| ==> before[i].fingerprint == fp;
      }
    }
  }

  lemma {:induction false} FinalizedIffRecorded(es: Log)
    ensures LatestFinalization(es).Some? <==> AlreadyRecorded(es, AnyFinalized, NoEvent)
  {
    if es != [] {
      FinalizedIffRecorded(es[..|es| - 1]);
    }
  }

  lemma {:induction false} UnsignedIffRecorded(es: Log)
    ensures LatestUnsignedHash(es).Some? <==> AlreadyRecorded(es, AnyPsbtCreated, NoEvent)
  {
    if es != [] {
      UnsignedIffRecorded(es[..|es| - 1]);
    }
  }

  /** The guards, which scan the log, and the cached fields of a loaded session
      always say the same: a repeat is recognised exactly when the field is set. */
  lemma GuardsAgreeWithCache(s: Session, c: Command)
    requires Replay(s.events) == Some(s)
    ensures c.DoRecordPsbtCreated? ==> (Apply(s, c).1 == AlreadyApplied <==> s.unsignedHash.Some?)
    ensures c.DoAddSignature? ==> (Apply(s, c).1 == AlreadyApplied <==> HasSigned(s.signatures, c.fingerprint))
    ensures c.DoFinalize? ==> (Apply(s, c).1 == AlreadyApplied <==> s.finalization.Some?)
  {
    match c
    case DoRecordPsbtCreated(_) => UnsignedIffRecorded(s.events);
    case DoAddSignature(fp, _) => SignedIffRecorded(s.events, fp);
    case DoFinalize(_, _, _) => FinalizedIffRecorded(s.events);
    case _ =>
  }

  /** Collecting is entered only by recording the unsigned PSBT. */
  lemma {:induction false} CollectingHasPsbt(es: Log)
    requires StatusOf(es) == Collecting
    ensures LatestUnsignedHash(es).Some?
  {
    if StatusSetBy(es[|es| - 1]).None? {
      CollectingHasPsbt(es[..|es| - 1]);
    }
  }

  lemma ReplaySnoc(es: Log, e: SessionEvent)
    requires !e.Initialized?
    ensures LatestPolicy(es + [e]) == LatestPolicy(es)
    ensures LatestUnsignedHash(es + [e]) == if e.PsbtCreated? then Some(e.unsignedHash) else LatestUnsignedHash(es)
    ensures LatestFinalization(es + [e]) == if e.Finalized? then Some(e.record) else LatestFinalization(es)
    ensures SignaturesIn(es + [e]) ==
            if e.SignatureAdded? then SignaturesIn(es) + [SignatureRecord(e.fingerprint, e.signedHash)]
            else SignaturesIn(es)
  {
    assert (es + [e])[..|es|] == es;
  }

  lemma SignersSnoc(sigs: seq<SignatureRecord>, r: SignatureRecord)
    ensures Signers(sigs + [r]) == Signers(sigs) + [r.fingerprint]
    ensures forall fp :: HasSigned(sigs + [r], fp) <==> HasSigned(sigs, fp) || fp == r.fingerprint
  {
    var all := sigs + [r];
    forall fp ensures HasSigned(all, fp) <==> HasSigned(sigs, fp) || fp == r.fingerprint {
      if HasSigned(sigs, fp) {
        var i :| 0 <= i < |sigs| && sigs[i].fingerprint == fp;
        assert all[i].fingerprint == fp;
      }
      assert all[|sigs|].fingerprint == r.fingerprint;
    }
  }

  lemma SignedIffSigner(sigs: seq<SignatureRecord>, fp: Fingerprint)
    ensures HasSigned(sigs, fp) <==> fp in Signers(sigs)
  {
    if HasSigned(sigs, fp) {
      var i :| 0 <= i < |sigs| && sigs[i].fingerprint == fp;
      assert Signers(sigs)[i] == fp;
    }
  }

  lemma AddSignatureKeepsHydrated(s: Session, fp: Fingerprint, hash: PsbtHash)
    requires Hydrated(s)
    ensures Hydrated(AddSignature(s, fp, hash).0)
  {
    var (t, outcome) := AddSignature(s, fp, hash);
    if outcome.Executed? {
      var r := SignatureRecord(fp, hash);
      ReplaySnoc(s.events, SignatureAdded(fp, hash));
      SignersSnoc(s.signatures, r);
      SignedIffRecorded(s.events, fp);
      SignedIffSigner(s.signatures, fp);
      DistinctSnoc(Signers(s.signatures), fp);
      FinalizedIffRecorded(s.events);
    }
  }

  /** What a successful `Finalize` records: the signers it was given, sorted. */
  lemma FinalizeRecords(s: Session, txid: Txid, hash: PsbtHash, used: seq<Fingerprint>)
    requires Finalize(s, txid, hash, used).1.Executed?
    ensures Finalize(s, txid, hash, used).0.finalization
            == Some(FinalizationRecord(txid, hash, Sort(used, FingerprintLe)))
    ensures SortedBy(Sort(used, FingerprintLe), FingerprintLe)
    ensures multiset(Sort(used, FingerprintLe)) == multiset(used)
    ensures ValidFinalization(s.policy, s.signatures, FinalizationRecord(txid, hash, Sort(used, FingerprintLe)))
  {
    FingerprintOrder();
    SortSorts(used, FingerprintLe);
    SortDedupDecidesDistinct(used, FingerprintLe);
    DistinctPermutes(used, Sort(used, FingerprintLe));
  }

  /** Finalizing succeeds exactly when it should: not yet finalized, still
      collecting, and `used` is at least a threshold of distinct signers. */
  lemma FinalizeExecutesIff(s: Session, txid: Txid, hash: PsbtHash, used: seq<Fingerprint>)
    ensures Finalize(s, txid, hash, used).1.Executed? <==>
            && !AlreadyRecorded(s.events, AnyFinalized, NoEvent)
            && StatusOf(s.events) == Collecting
            && |used| >= s.policy.threshold
            && Distinct(used)
            && (forall fp :: fp in used ==> HasSigned(s.signatures, fp))
  {
    FingerprintOrder();
    SortSorts(used, FingerprintLe);
    SortDedupDecidesDistinct(used, FingerprintLe);
    var sorted := Sort(used, FingerprintLe);
    SameElements(sorted, used);
    if forall i :: 0 <= i < |sorted| ==> HasSigned(s.signatures, sorted[i]) {
      forall fp | fp in used ensures HasSigned(s.signatures, fp) { assert fp in sorted; }
    }
    if forall fp :: fp in used ==> HasSigned(s.signatures, fp) {
      forall i | 0 <= i < |sorted| ensures HasSigned(s.signatures, sorted[i]) { assert sorted[i] in used; }
    }
  }

  lemma FinalizeKeepsHydrated(s: Session, txid: Txid, hash: PsbtHash, used: seq<Fingerprint>)
    requires Hydrated(s)
    ensures Hydrated(Finalize(s, txid, hash, used).0)
  {
    var (t, outcome) := Finalize(s, txid, hash, used);
    if outcome.Executed? {
      FinalizeRecords(s, txid, hash, used);
      ReplaySnoc(s.events, Finalized(t.finalization.value));
    }
  }

  /** Events that touch neither the signatures nor the finalization. */
  lemma PlainEventKeepsHydrated(s: Session, e: SessionEvent)
    requires Hydrated(s) && !e.Initialized? && !e.SignatureAdded? && !e.Finalized?
    ensures Hydrated(s.(unsignedHash := if e.PsbtCreated? then Some(e.unsignedHash) else s.unsignedHash,
                        events := s.events + [e]))
  {
    ReplaySnoc(s.events, e);
  }

  /** A proposal's log replays to the proposal. */
  lemma ProposedIsHydrated(p: Policy)
    requires ValidPolicy(p)
    ensures Hydrated(Proposed(p))
  {
    assert Proposed(p).events[..0] == [];
    assert LatestUnsignedHash([]) == None && LatestFinalization([]) == None && SignaturesIn([]) == [];
  }

  /** Loading the log after any command gives back the in-memory entity. */
  lemma CommandKeepsHydrated(s: Session, c: Command)
    requires Hydrated(s)
    ensures Hydrated(Apply(s, c).0)
  {
    match c
    case DoRecordPsbtCreated(hash) => PlainEventKeepsHydrated(s, PsbtCreated(hash));
    case DoAddSignature(fp, hash) => AddSignatureKeepsHydrated(s, fp, hash);
    case DoFinalize(txid, hash, used) => FinalizeKeepsHydrated(s, txid, hash, used);
    case DoMarkBroadcastSeen(txid) => PlainEventKeepsHydrated(s, BroadcastSeen(txid));
    case DoConfirm(txid, height, blockHash) => PlainEventKeepsHydrated(s, Confirmed(txid, height, blockHash));
    case DoInvalidate(reason) => PlainEventKeepsHydrated(s, Invalidated(reason));
    case DoCancel(user, why) => PlainEventKeepsHydrated(s, Cancelled(user, why));
  }

  /** Hydration closure: from any session that loads, after any commands, the
      log loads again to exactly the entity in memory, the construction
      invariants hold, and a collecting session knows its unsigned PSBT. */
  lemma {:induction false} HydrationClosure(s: Session, cs: seq<Command>)
    requires Hydrated(s)
    ensures Hydrated(Run(s, cs))
    ensures StatusOf(Run(s, cs).events) == Collecting ==> Run(s, cs).unsignedHash.Some?
    decreases |cs|
  {
    if cs == [] {
      if StatusOf(s.events) == Collecting { CollectingHasPsbt(s.events); }
    } else {
      CommandKeepsHydrated(s, cs[0]);
      HydrationClosure(Apply(s, cs[0]).0, cs[1..]);
    }
  }

  // --- logs only grow ---

  lemma ApplyAppends(s: Session, c: Command)
    ensures Apply(s, c).1 == Executed ==>
              |Apply(s, c).0.events| == |s.events| + 1 && s.events <= Apply(s, c).0.events
    ensures Apply(s, c).1 != Executed ==> Apply(s, c).0 == s
    ensures Apply(s, c).0.policy == s.policy
  {
  }

  lemma {:induction false} RunExtends(s: Session, cs: seq<Command>)
    ensures s.events <= Run(s, cs).events && Run(s, cs).policy == s.policy
    decreases |cs|
  {
    if cs != [] {
      ApplyAppends(s, cs[0]);
      RunExtends(Apply(s, cs[0]).0, cs[1..]);
    }
  }

  lemma {:induction false} RunSnoc(s: Session, cs: seq<Command>, c: Command)
    ensures Run(s, cs + [c]) == Apply(Run(s, cs), c).0
    decreases |cs|
  {
    if cs == [] {
      assert cs + [c] == [c];
      assert [c][1..] == [];
    } else {
      assert (cs + [c])[1..] == cs[1..] + [c];
      RunSnoc(Apply(s, cs[0]).0, cs[1..], c);
    }
  }

  // --- repeated delivery ---

  lemma NewestRecorded(es: Log, e: SessionEvent, applied: Pattern, resets: Pattern)
    requires Matches(applied, e)
    ensures AlreadyRecorded(es + [e], applied, resets)
  {
  }

  /** A command delivered again right away changes nothing. */
  lemma StutterOnce(s: Session, c: Command)
    ensures Apply(Apply(s, c).0, c).0 == Apply(s, c).0
  {
    ApplyAppends(s, c);
    match c
    case DoRecordPsbtCreated(hash) => NewestRecorded(s.events, PsbtCreated(hash), AnyPsbtCreated, NoEvent);
    case DoAddSignature(fp, hash) => NewestRecorded(s.events, SignatureAdded(fp, hash), SignatureBy(fp), NoEvent);
    case DoFinalize(txid, hash, used) => StutterFinalize(s, txid, hash, used);
    case DoMarkBroadcastSeen(txid) => NewestRecorded(s.events, BroadcastSeen(txid), AnyBroadcastSeen, NoEvent);
    case DoConfirm(txid, h, bh) => NewestRecorded(s.events, Confirmed(txid, h, bh), AnyConfirmed, AnyInvalidated);
    case DoInvalidate(reason) => NewestRecorded(s.events, Invalidated(reason), AnyInvalidated, AnyConfirmed);
    case DoCancel(user, why) => NewestRecorded(s.events, Cancelled(user, why), AnyCancelled, NoEvent);
  }

  lemma StutterFinalize(s: Session, txid: Txid, hash: PsbtHash, used: seq<Fingerprint>)
    ensures var t := Finalize(s, txid, hash, used).0; Finalize(t, txid, hash, used).0 == t
  {
    var (t, outcome) := Finalize(s, txid, hash, used);
    if outcome.Executed? {
      NewestRecorded(s.events, t.events[|s.events|], AnyFinalized, NoEvent);
    }
  }

  /** Each command is delivered once plus `extra` more times. */
  function Redelivered(cs: seq<Command>, extra: seq<nat>): (r: seq<Command>)
    requires |cs| == |extra|
    decreases |cs|
  {
    if cs == [] then []
    else seq(1 + extra[0], _ => cs[0]) + Redelivered(cs[1..], extra[1..])
  }

  lemma {:induction false} RunConcat(s: Session, a: seq<Command>, b: seq<Command>)
    ensures Run(s, a + b) == Run(Run(s, a), b)
    decreases |a|
  {
    if a == [] {
      assert a + b == b;
    } else {
      assert (a + b)[1..] == a[1..] + b;
      RunConcat(Apply(s, a[0]).0, a[1..], b);
    }
  }

  lemma {:induction false} RunRepeat(s: Session, c: Command, cs: seq<Command>)
    requires |cs| >= 1 && forall i :: 0 <= i < |cs| ==> cs[i] == c
    ensures Run(s, cs) == Apply(s, c).0
    decreases |cs|
  {
    if |cs| == 1 {
      assert cs[1..] == [];
    } else {
      StutterOnce(s, c);
      RunRepeat(Apply(s, c).0, c, cs[1..]);
    }
  }

  /** At-least-once delivery: a run in which every command may be repeated
      right after itself ends in the same session as the run without repeats. */
  lemma {:induction false} StutterInvariance(s: Session, cs: seq<Command>, extra: seq<nat>)
    requires |cs| == |extra|
    ensures Run(s, Redelivered(cs, extra)) == Run(s, cs)
    decreases |cs|
  {
    if cs != [] {
      var reps := seq(1 + extra[0], _ => cs[0]);
      RunConcat(s, reps, Redelivered(cs[1..], extra[1..]));
      RunRepeat(s, cs[0], reps);
      StutterInvariance(Apply(s, cs[0]).0, cs[1..], extra[1..]);
    }
  }

  /** A user command that took effect stays a no-op for ever after. */
  lemma UserCommandSticks(s: Session, c: Command, later: seq<Command>)
    requires IsUserCommand(c) && Apply(s, c).1 == Executed
    ensures Apply(Run(Apply(s, c).0, later), c) == (Run(Apply(s, c).0, later), AlreadyApplied)
  {
    var t := Apply(s, c).0;
    var u := Run(t, later);
    RunExtends(t, later);
    var n := |s.events|;
    assert u.events[n] == t.events[n];
    match c
    case DoRecordPsbtCreated(_) => NoResetMeaning(u.events, AnyPsbtCreated);
    case DoAddSignature(fp, _) => NoResetMeaning(u.events, SignatureBy(fp));
    case DoFinalize(_, _, _) => NoResetMeaning(u.events, AnyFinalized);
    case DoCancel(_, _) => NoResetMeaning(u.events, AnyCancelled);
  }

  predicate IsChainEvent(e: SessionEvent) {
    e.BroadcastSeen? || e.Confirmed? || e.Invalidated?
  }

  predicate ChainDecides(es: Log) {
    es != [] && IsChainEvent(es[|es| - 1])
  }

  /** Once the newest event is an observation of the chain, every event ever
      appended afterwards is one too: users no longer decide. */
  lemma {:induction false} ChainHasTheLastWord(s: Session, cs: seq<Command>)
    requires ChainDecides(s.events)
    ensures ChainDecides(Run(s, cs).events)
    ensures s.events <= Run(s, cs).events
    ensures forall i :: |s.events| <= i < |Run(s, cs).events| ==> IsChainEvent(Run(s, cs).events[i])
    decreases |cs|
  {
    if cs != [] {
      var t := Apply(s, cs[0]).0;
      ChainHasTheLastWord(t, cs[1..]);
      assert StatusOf(s.events) in {Broadcast, ConfirmedStatus, InvalidatedStatus};
      ApplyAppends(s, cs[0]);
      var u := Run(s, cs);
      forall i | |s.events| <= i < |u.events| ensures IsChainEvent(u.events[i]) {
        if i < |t.events| { assert u.events[i] == t.events[i]; }
      }
    }
  }

  /** A recorded finalization (transaction id and signers) never changes. */
  lemma {:induction false} FinalizationIsPermanent(s: Session, cs: seq<Command>)
    requires Hydrated(s) && s.finalization.Some?
    ensures Run(s, cs).finalization == s.finalization
    decreases |cs|
  {
    if cs != [] {
      FinalizedIffRecorded(s.events);
      CommandKeepsHydrated(s, cs[0]);
      FinalizationIsPermanent(Apply(s, cs[0]).0, cs[1..]);
    }
  }
}
