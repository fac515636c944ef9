/** The exact set of logs a session can ever have, described without commands:
    a shape (proposal, unsigned PSBT, signatures, settlement, chain word) and
    the theorem that a log is reachable if and only if it has such a shape. */
module SessionLanguage {
  import opened Foundation
  import opened Documents
  import opened Sorting
  import opened SessionModel
  import opened SessionHistory

  /** What follows `Initialized`. */
  datatype Body =
    | AwaitingPsbt
    | CancelledEarly(user: UserId, why: string)
    | Signing(hash: PsbtHash, sigs: seq<SignatureRecord>)
    | CancelledSigning(hash: PsbtHash, sigs: seq<SignatureRecord>, user: UserId, why: string)
    | Settled(hash: PsbtHash, sigs: seq<SignatureRecord>, record: FinalizationRecord,
              withdrawal: Log, chain: Log)

  function SignatureEvents(sigs: seq<SignatureRecord>): Log {
    if sigs == [] then []
    else SignatureEvents(sigs[..|sigs| - 1])
         + [SignatureAdded(sigs[|sigs| - 1].fingerprint, sigs[|sigs| - 1].signedHash)]
  }

  function SigningLog(p: Policy, hash: PsbtHash, sigs: seq<SignatureRecord>): Log {
    [Initialized(p)] + [PsbtCreated(hash)] + SignatureEvents(sigs)
  }

  function Render(p: Policy, b: Body): Log {
    match b
    case AwaitingPsbt => [Initialized(p)]
    case CancelledEarly(user, why) => [Initialized(p)] + [Cancelled(user, why)]
    case Signing(hash, sigs) => SigningLog(p, hash, sigs)
    case CancelledSigning(hash, sigs, user, why) => SigningLog(p, hash, sigs) + [Cancelled(user, why)]
    case Settled(hash, sigs, record, withdrawal, chain) =>
      SigningLog(p, hash, sigs) + [Finalized(record)] + withdrawal + chain
  }

  /** A chain word: observations of one transaction in which confirmations and
      invalidations alternate, the mempool sighting comes at most once and only
      first or right after an invalidation, and nothing is invalidated before it
      was seen or confirmed. */
  ghost predicate ChainWord(w: Log, txid: Txid) {
    && (forall i :: 0 <= i < |w| ==> IsChainEvent(w[i]) && (w[i].Invalidated? || w[i].txid == txid))
    && Separated(w, AnyConfirmed, AnyInvalidated)
    && Separated(w, AnyInvalidated, AnyConfirmed)
    && SightedAtMostOnce(w)
    && (forall i :: 0 < i < |w| && w[i].BroadcastSeen? ==> w[i - 1].Invalidated?)
    && (forall i :: 0 <= i < |w| && w[i].Invalidated? ==> SeenBefore(w, i))
  }

  ghost predicate SeenBefore(w: Log, i: nat)
    requires i <= |w|
  {
    exists k :: 0 <= k < i && (w[k].Confirmed? || w[k].BroadcastSeen?)
  }

  /** Between any two events of kind `a` there is one of kind `b`. */
  ghost predicate Separated(w: Log, a: Pattern, b: Pattern) {
    forall i, j :: 0 <= i < j < |w| && Matches(a, w[i]) && Matches(a, w[j]) ==> Between(w, i, j, b)
  }

  ghost predicate Between(w: Log, i: int, j: int, b: Pattern)
    requires 0 <= i < j <= |w|
  {
    exists k :: i < k < j && Matches(b, w[k])
  }

  ghost predicate SightedAtMostOnce(w: Log) {
    forall i, j :: 0 <= i < j < |w| && w[i].BroadcastSeen? ==> !w[j].BroadcastSeen?
  }

  ghost predicate WellFormed(p: Policy, b: Body) {
    && ValidPolicy(p)
    && match b
       case AwaitingPsbt => true
       case CancelledEarly(_, _) => true
       case Signing(_, sigs) => ValidSignatures(p, sigs)
       case CancelledSigning(_, sigs, _, _) => ValidSignatures(p, sigs)
       case Settled(_, sigs, record, withdrawal, chain) =>
         && ValidSignatures(p, sigs)
         && ValidFinalization(p, sigs, record)
         && SortedBy(record.sigsUsed, FingerprintLe)
         && (withdrawal == [] || (|withdrawal| == 1 && withdrawal[0].Cancelled?))
         && ChainWord(chain, record.txid)
  }

  /** The log some run of commands on some valid proposal leaves behind. */
  ghost predicate Reachable(es: Log) {
    exists p: Policy, cs: seq<Command> :: ValidPolicy(p) && Run(Proposed(p), cs).events == es
  }

  ghost predicate InLanguage(es: Log) {
    exists p: Policy, b: Body :: WellFormed(p, b) && Render(p, b) == es
  }

  // --- the entity a shape stands for ---

  function BodyHash(b: Body): Option<PsbtHash> {
    if b.AwaitingPsbt? || b.CancelledEarly? then None else Some(b.hash)
  }

  function BodySignatures(b: Body): seq<SignatureRecord> {
    if b.AwaitingPsbt? || b.CancelledEarly? then [] else b.sigs
  }

  function BodyFinalization(b: Body): Option<FinalizationRecord> {
    if b.Settled? then Some(b.record) else None
  }

  function EntityOf(p: Policy, b: Body): Session {
    Session(p, BodyHash(b), BodySignatures(b), BodyFinalization(b), Render(p, b))
  }

  // --- scans over the parts of a shape ---

  lemma {:induction false} SignatureEventsFacts(sigs: seq<SignatureRecord>)
    ensures StatusScan(SignatureEvents(sigs)) == None
    ensures SignaturesIn(SignatureEvents(sigs)) == sigs
    ensures LatestPolicy(SignatureEvents(sigs)) == None
    ensures LatestUnsignedHash(SignatureEvents(sigs)) == None
    ensures LatestFinalization(SignatureEvents(sigs)) == None
  {
    if sigs != [] {
      SignatureEventsFacts(sigs[..|sigs| - 1]);
      var es := SignatureEvents(sigs);
      assert es[..|es| - 1] == SignatureEvents(sigs[..|sigs| - 1]);
      assert sigs[..|sigs| - 1] + [sigs[|sigs| - 1]] == sigs;
    }
  }

  lemma {:induction false} SignatureEventsScan(sigs: seq<SignatureRecord>, p: Pattern, r: Pattern)
    requires !p.SignatureBy? && !r.SignatureBy?
    ensures Scan(SignatureEvents(sigs), p, r) == Exhausted
  {
    if sigs != [] {
      SignatureEventsScan(sigs[..|sigs| - 1], p, r);
      var es := SignatureEvents(sigs);
      assert es[..|es| - 1] == SignatureEvents(sigs[..|sigs| - 1]);
    }
  }

  predicate IsChainPattern(p: Pattern) {
    p.AnyBroadcastSeen? || p.AnyConfirmed? || p.AnyInvalidated?
  }

  lemma {:induction false} ChainScan(w: Log, p: Pattern, r: Pattern)
    requires forall i :: 0 <= i < |w| ==> IsChainEvent(w[i])
    requires !IsChainPattern(p) && !IsChainPattern(r)
    ensures Scan(w, p, r) == Exhausted
  {
    if w != [] { ChainScan(w[..|w| - 1], p, r); }
  }

  lemma {:induction false} ChainReplay(w: Log)
    requires forall i :: 0 <= i < |w| ==> IsChainEvent(w[i])
    ensures LatestPolicy(w) == None && LatestUnsignedHash(w) == None && LatestFinalization(w) == None
    ensures SignaturesIn(w) == []
  {
    if w != [] { ChainReplay(w[..|w| - 1]); }
  }

  /** Everything before the chain word. */
  function Head(p: Policy, b: Body): Log {
    if b.Settled? then Render(p, b.(chain := [])) else Render(p, b)
  }

  function ChainOf(b: Body): Log {
    if b.Settled? then b.chain else []
  }

  function HeadStatus(b: Body): Status {
    match b
    case AwaitingPsbt => Pending
    case CancelledEarly(_, _) => CancelledStatus
    case Signing(_, _) => Collecting
    case CancelledSigning(_, _, _, _) => CancelledStatus
    case Settled(_, _, _, withdrawal, _) => if withdrawal == [] then FinalizedStatus else CancelledStatus
  }

  lemma RenderSplits(p: Policy, b: Body)
    ensures Render(p, b) == Head(p, b) + ChainOf(b)
  {
    if b.Settled? {
      var front := SigningLog(p, b.hash, b.sigs) + [Finalized(b.record)] + b.withdrawal;
      assert front + [] == front;
    } else {
      assert Render(p, b) + [] == Render(p, b);
    }
  }

  lemma SingletonScans(e: SessionEvent, p: Pattern, r: Pattern)
    ensures StatusScan([e]) == StatusSetBy(e)
    ensures Scan([e], p, r) == if Matches(p, e) then Hit else if Matches(r, e) then Stopped else Exhausted
  {
    assert [e][..0] == [];
    assert StatusScan([]) == None && Scan([], p, r) == Exhausted;
  }

  /** The head of a shape: its status, and what its guards find. */
  ghost predicate HeadAnswers(b: Body, es: Log, a: Pattern, r: Pattern) {
    && StatusOf(es) == HeadStatus(b)
    && (IsChainPattern(a) && (IsChainPattern(r) || r.NoEvent?) ==> Scan(es, a, r) == Exhausted)
    && (a.AnyPsbtCreated? && r.NoEvent? ==> (Scan(es, a, r) == Hit <==> BodyHash(b).Some?))
    && (a.AnyFinalized? && r.NoEvent? ==> (Scan(es, a, r) == Hit <==> b.Settled?))
    && (a.AnyCancelled? && r.NoEvent? ==> (Scan(es, a, r) == Hit <==> HeadStatus(b) == CancelledStatus))
  }

  lemma HeadFacts(p: Policy, b: Body, a: Pattern, r: Pattern)
    requires WellFormed(p, b)
    requires !a.SignatureBy? && !r.SignatureBy?
    ensures HeadAnswers(b, Head(p, b), a, r)
  {
    match b
    case AwaitingPsbt => SingletonScans(Initialized(p), a, r);
    case CancelledEarly(user, why) =>
      SingletonScans(Initialized(p), a, r);
      TwoPartFacts([Initialized(p)], Cancelled(user, why), a, r);
    case Signing(hash, sigs) =>
      SigningFacts(p, hash, sigs, a, r);
    case CancelledSigning(hash, sigs, user, why) =>
      SigningFacts(p, hash, sigs, a, r);
      CancelledHead(b, SigningLog(p, hash, sigs), a, r);
    case Settled(hash, sigs, record, withdrawal, chain) =>
      SigningFacts(p, hash, sigs, a, r);
      SettledHead(b, SigningLog(p, hash, sigs), a, r);
      RenderSplits(p, b.(chain := []));
  }

  ghost predicate AfterSigning(front: Log, a: Pattern, r: Pattern) {
    && StatusScan(front) == Some(Collecting)
    && Scan(front, a, r) == if a.AnyPsbtCreated? then Hit else if r.AnyPsbtCreated? then Stopped else Exhausted
  }

  lemma CancelledHead(b: Body, front: Log, a: Pattern, r: Pattern)
    requires b.CancelledSigning? && AfterSigning(front, a, r) && !a.SignatureBy? && !r.SignatureBy?
    ensures HeadAnswers(b, front + [Cancelled(b.user, b.why)], a, r)
  {
    TwoPartFacts(front, Cancelled(b.user, b.why), a, r);
  }

  lemma SettledHead(b: Body, front: Log, a: Pattern, r: Pattern)
    requires b.Settled? && AfterSigning(front, a, r) && !a.SignatureBy? && !r.SignatureBy?
    requires b.withdrawal == [] || (|b.withdrawal| == 1 && b.withdrawal[0].Cancelled?)
    ensures HeadAnswers(b, front + [Finalized(b.record)] + b.withdrawal + [], a, r)
  {
    SettledFacts(front, b.record, b.withdrawal, a, r);
    var es := front + [Finalized(b.record)] + b.withdrawal;
    assert es + [] == es;
  }

  lemma SettledFacts(front: Log, record: FinalizationRecord, withdrawal: Log, a: Pattern, r: Pattern)
    requires withdrawal == [] || (|withdrawal| == 1 && withdrawal[0].Cancelled?)
    ensures var es := front + [Finalized(record)] + withdrawal;
            && StatusScan(es) == Some(if withdrawal == [] then FinalizedStatus else CancelledStatus)
            && Scan(es, a, r) == if withdrawal != [] && a.AnyCancelled? then Hit
                                 else if withdrawal != [] && r.AnyCancelled? then Stopped
                                 else if a.AnyFinalized? then Hit
                                 else if r.AnyFinalized? then Stopped
                                 else Scan(front, a, r)
  {
    TwoPartFacts(front, Finalized(record), a, r);
    var settled := front + [Finalized(record)];
    if withdrawal == [] {
      assert settled + withdrawal == settled;
    } else {
      assert withdrawal == [withdrawal[0]];
      TwoPartFacts(settled, withdrawal[0], a, r);
    }
  }

  lemma TwoPartFacts(es: Log, e: SessionEvent, a: Pattern, r: Pattern)
    ensures StatusScan(es + [e]) == if StatusSetBy(e).Some? then StatusSetBy(e) else StatusScan(es)
    ensures Scan(es + [e], a, r)
            == if Matches(a, e) then Hit else if Matches(r, e) then Stopped else Scan(es, a, r)
  {
    assert (es + [e])[..|es|] == es;
  }

  lemma SigningFacts(p: Policy, hash: PsbtHash, sigs: seq<SignatureRecord>, a: Pattern, r: Pattern)
    requires !a.SignatureBy? && !r.SignatureBy?
    ensures AfterSigning(SigningLog(p, hash, sigs), a, r)
  {
    var two := [Initialized(p)] + [PsbtCreated(hash)];
    SingletonScans(Initialized(p), a, r);
    TwoPartFacts([Initialized(p)], PsbtCreated(hash), a, r);
    SignatureEventsFacts(sigs);
    SignatureEventsScan(sigs, a, r);
    StatusScanConcat(two, SignatureEvents(sigs));
    ScanConcat(two, SignatureEvents(sigs), a, r);
  }

  ghost predicate ReplaysTo(es: Log, p: Policy, hash: Option<PsbtHash>, sigs: seq<SignatureRecord>,
                            f: Option<FinalizationRecord>)
  {
    && LatestPolicy(es) == Some(p)
    && LatestUnsignedHash(es) == hash
    && SignaturesIn(es) == sigs
    && LatestFinalization(es) == f
  }

  /** A shape's log folds to the shape's entity. */
  lemma RenderReplays(p: Policy, b: Body)
    requires WellFormed(p, b)
    ensures ReplaysTo(Render(p, b), p, BodyHash(b), BodySignatures(b), BodyFinalization(b))
    ensures Hydrated(EntityOf(p, b))
  {
    var init := [Initialized(p)];
    InitReplays(p);
    match b
    case AwaitingPsbt =>
    case CancelledEarly(user, why) =>
      ReplaySnoc(init, Cancelled(user, why));
    case Signing(hash, sigs) =>
      SigningReplays(p, hash, sigs);
    case CancelledSigning(hash, sigs, user, why) =>
      SigningReplays(p, hash, sigs);
      ReplaySnoc(SigningLog(p, hash, sigs), Cancelled(user, why));
    case Settled(hash, sigs, record, withdrawal, chain) =>
      SigningReplays(p, hash, sigs);
      SettledReplays(SigningLog(p, hash, sigs), p, hash, sigs, record, withdrawal, chain);
  }

  lemma InitReplays(p: Policy)
    ensures ReplaysTo([Initialized(p)], p, None, [], None)
  {
    assert [Initialized(p)][..0] == [];
    assert SignaturesIn([]) == [] && LatestUnsignedHash([]) == None && LatestFinalization([]) == None;
  }

  lemma SettledReplays(front: Log, p: Policy, hash: PsbtHash, sigs: seq<SignatureRecord>,
                       record: FinalizationRecord, withdrawal: Log, chain: Log)
    requires ReplaysTo(front, p, Some(hash), sigs, None)
    requires withdrawal == [] || (|withdrawal| == 1 && withdrawal[0].Cancelled?)
    requires forall i :: 0 <= i < |chain| ==> IsChainEvent(chain[i])
    ensures ReplaysTo(front + [Finalized(record)] + withdrawal + chain, p, Some(hash), sigs, Some(record))
  {
    ReplaySnoc(front, Finalized(record));
    var settled := front + [Finalized(record)];
    ChainReplay(chain);
    if withdrawal == [] {
      assert settled + withdrawal == settled;
    } else {
      ReplaySnoc(settled, withdrawal[0]);
      assert withdrawal == [withdrawal[0]];
    }
    ReplayConcat(settled + withdrawal, chain);
  }

  lemma SigningReplays(p: Policy, hash: PsbtHash, sigs: seq<SignatureRecord>)
    ensures var es := SigningLog(p, hash, sigs);
            && LatestPolicy(es) == Some(p)
            && LatestUnsignedHash(es) == Some(hash)
            && SignaturesIn(es) == sigs
            && LatestFinalization(es) == None
  {
    var init := [Initialized(p)];
    InitReplays(p);
    ReplaySnoc(init, PsbtCreated(hash));
    SignatureEventsFacts(sigs);
    ReplayConcat(init + [PsbtCreated(hash)], SignatureEvents(sigs));
  }

  // --- extending a chain word by one observation ---

  predicate MayFollow(w: Log, e: SessionEvent, txid: Txid) {
    && IsChainEvent(e)
    && (e.Invalidated? || e.txid == txid)
    && (e.BroadcastSeen? ==> Scan(w, AnyBroadcastSeen, NoEvent) != Hit && (w == [] || !w[|w| - 1].Confirmed?))
    && (e.Confirmed? ==> Scan(w, AnyConfirmed, AnyInvalidated) != Hit)
    && (e.Invalidated? ==> Scan(w, AnyInvalidated, AnyConfirmed) != Hit && w != [])
  }

  lemma BetweenPrefix(w: Log, e: SessionEvent, i: int, j: int, b: Pattern)
    requires 0 <= i < j <= |w|
    ensures Between(w + [e], i, j, b) <==> Between(w, i, j, b)
  {
    var v := w + [e];
    assert forall k :: 0 <= k < |w| ==> v[k] == w[k];
  }

  lemma GuardClear(w: Log, a: Pattern, b: Pattern)
    ensures Scan(w, a, b) != Hit <==> forall i :: 0 <= i < |w| && Matches(a, w[i]) ==> Between(w, i, |w|, b)
  {
    GuardMeaning(w, a, b);
    forall i | 0 <= i < |w|
      ensures Between(w, i, |w|, b) <==> !forall j :: i < j < |w| ==> !Matches(b, w[j])
    {
    }
  }

  lemma SeparatedSnoc(w: Log, e: SessionEvent, a: Pattern, b: Pattern)
    ensures Separated(w + [e], a, b) <==> Separated(w, a, b) && (Matches(a, e) ==> Scan(w, a, b) != Hit)
  {
    GuardClear(w, a, b);
    if Separated(w + [e], a, b) { SeparatedInit(w, e, a, b); }
    if Separated(w, a, b) && (Matches(a, e) ==> Scan(w, a, b) != Hit) { SeparatedExtend(w, e, a, b); }
  }

  lemma SeparatedInit(w: Log, e: SessionEvent, a: Pattern, b: Pattern)
    requires Separated(w + [e], a, b)
    ensures Separated(w, a, b)
    ensures Matches(a, e) ==> forall i :: 0 <= i < |w| && Matches(a, w[i]) ==> Between(w, i, |w|, b)
  {
    var v := w + [e];
    forall i, j | 0 <= i < j < |w| && Matches(a, w[i]) && Matches(a, w[j]) ensures Between(w, i, j, b) {
      BetweenPrefix(w, e, i, j, b);
      assert v[i] == w[i] && v[j] == w[j];
    }
    if Matches(a, e) {
      forall i | 0 <= i < |w| && Matches(a, w[i]) ensures Between(w, i, |w|, b) {
        BetweenPrefix(w, e, i, |w|, b);
        assert v[i] == w[i] && v[|w|] == e;
      }
    }
  }

  lemma SeparatedExtend(w: Log, e: SessionEvent, a: Pattern, b: Pattern)
    requires Separated(w, a, b)
    requires Matches(a, e) ==> forall i :: 0 <= i < |w| && Matches(a, w[i]) ==> Between(w, i, |w|, b)
    ensures Separated(w + [e], a, b)
  {
    var v := w + [e];
    forall i, j | 0 <= i < j < |v| && Matches(a, v[i]) && Matches(a, v[j]) ensures Between(v, i, j, b) {
      BetweenPrefix(w, e, i, j, b);
      assert v[i] == w[i] && (j < |w| ==> v[j] == w[j]);
    }
  }

  lemma SightedSnoc(w: Log, e: SessionEvent)
    ensures SightedAtMostOnce(w + [e]) <==>
            SightedAtMostOnce(w) && (e.BroadcastSeen? ==> Scan(w, AnyBroadcastSeen, NoEvent) != Hit)
  {
    var v := w + [e];
    NoResetMeaning(w, AnyBroadcastSeen);
    assert forall i :: 0 <= i < |w| ==> v[i] == w[i] && (Matches(AnyBroadcastSeen, w[i]) <==> w[i].BroadcastSeen?);
    if SightedAtMostOnce(v) {
      forall i, j | 0 <= i < j < |w| && w[i].BroadcastSeen? ensures !w[j].BroadcastSeen? {
        assert v[i].BroadcastSeen?;
      }
      if e.BroadcastSeen? {
        forall i | 0 <= i < |w| ensures !w[i].BroadcastSeen? { assert v[|w|].BroadcastSeen?; }
      }
    }
  }

  lemma ChainWordSnoc(w: Log, e: SessionEvent, txid: Txid)
    ensures ChainWord(w + [e], txid) <==> ChainWord(w, txid) && MayFollow(w, e, txid)
  {
    if ChainWord(w + [e], txid) {
      ChainWordInit(w, e, txid);
    }
    if ChainWord(w, txid) && MayFollow(w, e, txid) {
      ChainWordExtend(w, e, txid);
    }
  }

  lemma SeenBeforePrefix(w: Log, e: SessionEvent, i: nat)
    requires i <= |w|
    ensures SeenBefore(w + [e], i) <==> SeenBefore(w, i)
  {
    var v := w + [e];
    assert forall k :: 0 <= k < |w| ==> v[k] == w[k];
  }

  lemma ChainWordInit(w: Log, e: SessionEvent, txid: Txid)
    requires ChainWord(w + [e], txid)
    ensures ChainWord(w, txid) && MayFollow(w, e, txid)
  {
    var v := w + [e];
    assert v[|w|] == e && forall i :: 0 <= i < |w| ==> v[i] == w[i];
    SeparatedSnoc(w, e, AnyConfirmed, AnyInvalidated);
    SeparatedSnoc(w, e, AnyInvalidated, AnyConfirmed);
    SightedSnoc(w, e);
    forall i | 0 <= i < |w| && w[i].Invalidated? ensures SeenBefore(w, i) {
      assert v[i].Invalidated?;
      SeenBeforePrefix(w, e, i);
    }
    forall i | 0 < i < |w| && w[i].BroadcastSeen? ensures w[i - 1].Invalidated? {
      assert v[i].BroadcastSeen? && v[i - 1] == w[i - 1];
    }
    if e.BroadcastSeen? && w != [] { assert v[|w| - 1].Invalidated?; }
  }

  lemma ChainWordExtend(w: Log, e: SessionEvent, txid: Txid)
    requires ChainWord(w, txid) && MayFollow(w, e, txid)
    ensures ChainWord(w + [e], txid)
  {
    var v := w + [e];
    assert v[|w|] == e && forall i :: 0 <= i < |w| ==> v[i] == w[i];
    SeparatedSnoc(w, e, AnyConfirmed, AnyInvalidated);
    SeparatedSnoc(w, e, AnyInvalidated, AnyConfirmed);
    SightedSnoc(w, e);
    if e.BroadcastSeen? && w != [] {
      NotYetSighted(w);
    }
    forall i | 0 < i < |v| && v[i].BroadcastSeen? ensures v[i - 1].Invalidated? {
      assert v[i - 1] == w[i - 1];
    }
    forall i | 0 <= i < |v| && v[i].Invalidated? ensures SeenBefore(v, i) {
      SeenBeforePrefix(w, e, i);
      if i == |w| { LastWasSeen(w); }
    }
  }

  lemma NotYetSighted(w: Log)
    requires w != [] && IsChainEvent(w[|w| - 1]) && Scan(w, AnyBroadcastSeen, NoEvent) != Hit
    ensures !w[|w| - 1].BroadcastSeen?
  {
  }

  lemma LastWasSeen(w: Log)
    requires w != [] && IsChainEvent(w[|w| - 1]) && Scan(w, AnyInvalidated, AnyConfirmed) != Hit
    ensures SeenBefore(w, |w|)
  {
    assert w[|w| - 1].Confirmed? || w[|w| - 1].BroadcastSeen?;
  }

  // --- the shape automaton ---

  /** The body a command leads to. */
  function NextBody(p: Policy, b: Body, c: Command): Body {
    match b
    case AwaitingPsbt =>
      if c.DoRecordPsbtCreated? then Signing(c.hash, [])
      else if c.DoCancel? then CancelledEarly(c.user, c.why)
      else b
    case CancelledEarly(_, _) => b
    case Signing(hash, sigs) =>
      if c.DoAddSignature? && c.fingerprint in p.keystores && !HasSigned(sigs, c.fingerprint) then
        Signing(hash, sigs + [SignatureRecord(c.fingerprint, c.hash)])
      else if c.DoFinalize? && Finalize(EntityOf(p, b), c.txid, c.hash, c.sigsUsed).1.Executed? then
        Settled(hash, sigs, FinalizationRecord(c.txid, c.hash, Sort(c.sigsUsed, FingerprintLe)), [], [])
      else if c.DoCancel? then CancelledSigning(hash, sigs, c.user, c.why)
      else b
    case CancelledSigning(_, _, _, _) => b
    case Settled(hash, sigs, record, withdrawal, chain) =>
      if c.DoCancel? && chain == [] && withdrawal == [] then b.(withdrawal := [Cancelled(c.user, c.why)])
      else if Observes(c) && MayFollow(chain, Observation(c), record.txid) then b.(chain := chain + [Observation(c)])
      else b
  }

  predicate Observes(c: Command) {
    c.DoMarkBroadcastSeen? || c.DoConfirm? || c.DoInvalidate?
  }

  function Observation(c: Command): SessionEvent
    requires Observes(c)
  {
    match c
    case DoMarkBroadcastSeen(txid) => BroadcastSeen(txid)
    case DoConfirm(txid, height, blockHash) => Confirmed(txid, height, blockHash)
    case DoInvalidate(reason) => Invalidated(reason)
  }

  lemma ShapeFacts(p: Policy, b: Body, a: Pattern, r: Pattern)
    requires WellFormed(p, b)
    requires !a.SignatureBy? && !r.SignatureBy?
    ensures StatusOf(Render(p, b))
            == if ChainOf(b) == [] then HeadStatus(b) else StatusSetBy(ChainOf(b)[|ChainOf(b)| - 1]).value
    ensures !IsChainPattern(a) && !IsChainPattern(r) ==> Scan(Render(p, b), a, r) == Scan(Head(p, b), a, r)
    ensures IsChainPattern(a) && (IsChainPattern(r) || r.NoEvent?) ==>
              Scan(Render(p, b), a, r) == Scan(ChainOf(b), a, r)
    ensures HeadAnswers(b, Head(p, b), a, r)
  {
    RenderSplits(p, b);
    HeadFacts(p, b, a, r);
    ScanConcat(Head(p, b), ChainOf(b), a, r);
    StatusScanConcat(Head(p, b), ChainOf(b));
    if !IsChainPattern(a) && !IsChainPattern(r) { ChainScan(ChainOf(b), a, r); }
  }

  lemma RecordStep(p: Policy, b: Body, hash: PsbtHash)
    requires WellFormed(p, b)
    ensures RecordPsbtCreated(EntityOf(p, b), hash).0 == EntityOf(p, NextBody(p, b, DoRecordPsbtCreated(hash)))
  {
    ShapeFacts(p, b, AnyPsbtCreated, NoEvent);
    if b.AwaitingPsbt? {
      assert SignatureEvents([]) == [];
      assert [Initialized(p)] + [PsbtCreated(hash)] + [] == [Initialized(p)] + [PsbtCreated(hash)];
    }
  }

  function BodyStatus(b: Body): Status {
    if ChainOf(b) == [] then HeadStatus(b)
    else match StatusSetBy(ChainOf(b)[|ChainOf(b)| - 1])
      case Some(status) => status
      case None => HeadStatus(b)
  }

  lemma BodyStatusFacts(p: Policy, b: Body)
    requires WellFormed(p, b)
    ensures StatusOf(Render(p, b)) == BodyStatus(b)
  {
    ShapeFacts(p, b, AnyFinalized, NoEvent);
  }

  lemma SignatureGuard(p: Policy, b: Body, fp: Fingerprint)
    requires WellFormed(p, b)
    ensures AlreadyRecorded(Render(p, b), SignatureBy(fp), NoEvent) <==> HasSigned(BodySignatures(b), fp)
  {
    RenderReplays(p, b);
    SignedIffRecorded(Render(p, b), fp);
  }

  lemma SigningLogSnoc(p: Policy, hash: PsbtHash, sigs: seq<SignatureRecord>, r: SignatureRecord)
    ensures SigningLog(p, hash, sigs + [r]) == SigningLog(p, hash, sigs) + [SignatureAdded(r.fingerprint, r.signedHash)]
  {
    assert (sigs + [r])[..|sigs|] == sigs;
  }

  lemma SignOn(s: Session, fp: Fingerprint, hash: PsbtHash, signed: bool, status: Status)
    requires AlreadyRecorded(s.events, SignatureBy(fp), NoEvent) <==> signed
    requires StatusOf(s.events) == status
    ensures AddSignature(s, fp, hash).0
            == if !signed && status == Collecting && fp in s.policy.keystores
               then s.(signatures := s.signatures + [SignatureRecord(fp, hash)],
                       events := s.events + [SignatureAdded(fp, hash)])
               else s
  {
  }

  lemma CollectingIffSigning(p: Policy, b: Body)
    requires WellFormed(p, b)
    ensures BodyStatus(b) == Collecting <==> b.Signing?
  {
  }

  lemma SignedShape(p: Policy, b: Body, r: SignatureRecord)
    requires b.Signing?
    ensures EntityOf(p, Signing(b.hash, b.sigs + [r]))
            == EntityOf(p, b).(signatures := b.sigs + [r],
                               events := Render(p, b) + [SignatureAdded(r.fingerprint, r.signedHash)])
  {
    SigningLogSnoc(p, b.hash, b.sigs, r);
  }

  lemma SignStep(p: Policy, b: Body, fp: Fingerprint, hash: PsbtHash)
    requires WellFormed(p, b)
    ensures AddSignature(EntityOf(p, b), fp, hash).0 == EntityOf(p, NextBody(p, b, DoAddSignature(fp, hash)))
  {
    BodyStatusFacts(p, b);
    SignatureGuard(p, b, fp);
    SignOn(EntityOf(p, b), fp, hash, HasSigned(BodySignatures(b), fp), BodyStatus(b));
    CollectingIffSigning(p, b);
    if b.Signing? { SignedShape(p, b, SignatureRecord(fp, hash)); }
  }

  lemma SettledStarts(p: Policy, hash: PsbtHash, sigs: seq<SignatureRecord>, record: FinalizationRecord)
    ensures Render(p, Settled(hash, sigs, record, [], [])) == SigningLog(p, hash, sigs) + [Finalized(record)]
  {
    var front := SigningLog(p, hash, sigs) + [Finalized(record)];
    assert front + [] + [] == front;
  }

  lemma FinalizeOn(s: Session, txid: Txid, hash: PsbtHash, used: seq<Fingerprint>)
    ensures var (t, outcome) := Finalize(s, txid, hash, used);
            var record := FinalizationRecord(txid, hash, Sort(used, FingerprintLe));
            && (outcome.Executed? ==> StatusOf(s.events) == Collecting)
            && t == if outcome.Executed?
                    then s.(finalization := Some(record), events := s.events + [Finalized(record)]) else s
  {
    if Finalize(s, txid, hash, used).1.Executed? { FinalizeRecords(s, txid, hash, used); }
  }

  lemma FinalizedShape(p: Policy, b: Body, record: FinalizationRecord)
    requires b.Signing?
    ensures EntityOf(p, Settled(b.hash, b.sigs, record, [], []))
            == EntityOf(p, b).(finalization := Some(record), events := Render(p, b) + [Finalized(record)])
  {
    SettledStarts(p, b.hash, b.sigs, record);
  }

  lemma FinalizeStep(p: Policy, b: Body, txid: Txid, hash: PsbtHash, used: seq<Fingerprint>)
    requires WellFormed(p, b)
    ensures Finalize(EntityOf(p, b), txid, hash, used).0 == EntityOf(p, NextBody(p, b, DoFinalize(txid, hash, used)))
  {
    FinalizeOn(EntityOf(p, b), txid, hash, used);
    if Finalize(EntityOf(p, b), txid, hash, used).1.Executed? {
      BodyStatusFacts(p, b);
      CollectingIffSigning(p, b);
      FinalizedShape(p, b, FinalizationRecord(txid, hash, Sort(used, FingerprintLe)));
    }
  }

  lemma CancelGuard(p: Policy, b: Body)
    requires WellFormed(p, b)
    ensures AlreadyRecorded(Render(p, b), AnyCancelled, NoEvent) <==> HeadStatus(b) == CancelledStatus
  {
    ShapeFacts(p, b, AnyCancelled, NoEvent);
  }

  lemma WithdrawalRenders(p: Policy, b: Body, e: SessionEvent)
    requires b.Settled? && b.chain == [] && b.withdrawal == []
    ensures Render(p, b.(withdrawal := [e])) == Render(p, b) + [e]
  {
    var front := SigningLog(p, b.hash, b.sigs) + [Finalized(b.record)];
    assert front + [] + [] == front;
    assert front + [e] + [] == front + [e];
  }

  lemma CancelOn(s: Session, user: UserId, why: string, gone: bool, status: Status)
    requires AlreadyRecorded(s.events, AnyCancelled, NoEvent) <==> gone
    requires StatusOf(s.events) == status
    ensures Cancel(s, user, why).0
            == if !gone && status in {Pending, Collecting, FinalizedStatus}
               then s.(events := s.events + [Cancelled(user, why)]) else s
  {
  }

  predicate MayCancel(b: Body) {
    b.AwaitingPsbt? || b.Signing? || (b.Settled? && b.chain == [] && b.withdrawal == [])
  }

  lemma CancelIsDue(p: Policy, b: Body)
    requires WellFormed(p, b)
    ensures MayCancel(b)
            <==> HeadStatus(b) != CancelledStatus && BodyStatus(b) in {Pending, Collecting, FinalizedStatus}
  {
  }

  lemma CancelShape(p: Policy, b: Body, user: UserId, why: string)
    ensures EntityOf(p, NextBody(p, b, DoCancel(user, why)))
            == if MayCancel(b) then EntityOf(p, b).(events := Render(p, b) + [Cancelled(user, why)])
               else EntityOf(p, b)
  {
    if b.Settled? && MayCancel(b) { WithdrawalRenders(p, b, Cancelled(user, why)); }
  }

  lemma CancelStep(p: Policy, b: Body, user: UserId, why: string)
    requires WellFormed(p, b)
    ensures Cancel(EntityOf(p, b), user, why).0 == EntityOf(p, NextBody(p, b, DoCancel(user, why)))
  {
    BodyStatusFacts(p, b);
    CancelGuard(p, b);
    CancelIsDue(p, b);
    CancelOn(EntityOf(p, b), user, why, HeadStatus(b) == CancelledStatus, BodyStatus(b));
    CancelShape(p, b, user, why);
  }

  lemma RenderChainSnoc(p: Policy, b: Body, e: SessionEvent)
    requires b.Settled?
    ensures Render(p, b.(chain := b.chain + [e])) == Render(p, b) + [e]
  {
    var front := SigningLog(p, b.hash, b.sigs) + [Finalized(b.record)] + b.withdrawal;
    assert front + (b.chain + [e]) == (front + b.chain) + [e];
  }

  lemma ChainGuards(p: Policy, b: Body)
    requires WellFormed(p, b)
    ensures Scan(Render(p, b), AnyBroadcastSeen, NoEvent) == Scan(ChainOf(b), AnyBroadcastSeen, NoEvent)
    ensures Scan(Render(p, b), AnyConfirmed, AnyInvalidated) == Scan(ChainOf(b), AnyConfirmed, AnyInvalidated)
    ensures Scan(Render(p, b), AnyInvalidated, AnyConfirmed) == Scan(ChainOf(b), AnyInvalidated, AnyConfirmed)
  {
    ShapeFacts(p, b, AnyBroadcastSeen, NoEvent);
    ShapeFacts(p, b, AnyConfirmed, AnyInvalidated);
    ShapeFacts(p, b, AnyInvalidated, AnyConfirmed);
  }

  lemma ChainGuardsAtStart()
    ensures Scan([], AnyInvalidated, AnyConfirmed) == Exhausted
  {
  }

  lemma LastObservation(b: Body)
    requires b.Settled? && b.chain != [] && IsChainEvent(b.chain[|b.chain| - 1])
    ensures BodyStatus(b) == ConfirmedStatus <==> b.chain[|b.chain| - 1].Confirmed?
    ensures BodyStatus(b) == InvalidatedStatus <==> b.chain[|b.chain| - 1].Invalidated?
    ensures BodyStatus(b) in {ConfirmedStatus, InvalidatedStatus, Broadcast}
    ensures b.chain[|b.chain| - 1].Invalidated? ==> Scan(b.chain, AnyInvalidated, AnyConfirmed) == Hit
  {
  }

  lemma SightIsDue(p: Policy, b: Body, txid: Txid)
    requires WellFormed(p, b) && b.Settled?
    ensures MarkBroadcastSeen(EntityOf(p, b), txid).1 == Executed
            <==> MayFollow(b.chain, BroadcastSeen(txid), b.record.txid)
  {
    BodyStatusFacts(p, b);
    ChainGuards(p, b);
    if b.chain != [] { LastObservation(b); }
  }

  lemma SightStep(p: Policy, b: Body, txid: Txid)
    requires WellFormed(p, b)
    ensures Apply(EntityOf(p, b), DoMarkBroadcastSeen(txid)).0 == EntityOf(p, NextBody(p, b, DoMarkBroadcastSeen(txid)))
  {
    if b.Settled? {
      SightIsDue(p, b, txid);
      RenderChainSnoc(p, b, BroadcastSeen(txid));
      ApplyAppends(EntityOf(p, b), DoMarkBroadcastSeen(txid));
    }
  }

  lemma ConfirmStep(p: Policy, b: Body, txid: Txid, height: U64, blockHash: int)
    requires WellFormed(p, b)
    ensures Apply(EntityOf(p, b), DoConfirm(txid, height, blockHash)).0
            == EntityOf(p, NextBody(p, b, DoConfirm(txid, height, blockHash)))
  {
    if b.Settled? {
      ChainGuards(p, b);
      RenderChainSnoc(p, b, Confirmed(txid, height, blockHash));
    }
  }

  lemma InvalidateOn(s: Session, reason: InvalidationReason, hit: bool, status: Status)
    requires AlreadyRecorded(s.events, AnyInvalidated, AnyConfirmed) <==> hit
    requires StatusOf(s.events) == status
    ensures Invalidate(s, reason).0
            == if !hit && status in {Broadcast, ConfirmedStatus} then s.(events := s.events + [Invalidated(reason)])
               else s
    ensures Invalidate(s, reason).1 == Executed <==> !hit && status in {Broadcast, ConfirmedStatus}
    ensures Invalidate(s, reason).1 == AlreadyApplied <==> hit
  {
  }

  predicate InvalidatedLast(b: Body) { Scan(ChainOf(b), AnyInvalidated, AnyConfirmed) == Hit }

  predicate MayInvalidate(b: Body, reason: InvalidationReason) {
    b.Settled? && MayFollow(b.chain, Invalidated(reason), b.record.txid)
  }

  lemma InvalidateIsDue(p: Policy, b: Body, reason: InvalidationReason)
    requires WellFormed(p, b)
    ensures MayInvalidate(b, reason) <==> !InvalidatedLast(b) && BodyStatus(b) in {Broadcast, ConfirmedStatus}
  {
    ChainGuardsAtStart();
    if b.Settled? && b.chain != [] { LastObservation(b); }
  }

  lemma InvalidateShape(p: Policy, b: Body, reason: InvalidationReason)
    ensures EntityOf(p, NextBody(p, b, DoInvalidate(reason)))
            == if MayInvalidate(b, reason) then EntityOf(p, b).(events := Render(p, b) + [Invalidated(reason)])
               else EntityOf(p, b)
  {
    if b.Settled? { RenderChainSnoc(p, b, Invalidated(reason)); }
  }

  lemma InvalidateAnswers(p: Policy, b: Body, reason: InvalidationReason)
    requires WellFormed(p, b)
    ensures Invalidate(EntityOf(p, b), reason).0
            == if !InvalidatedLast(b) && BodyStatus(b) in {Broadcast, ConfirmedStatus}
               then EntityOf(p, b).(events := Render(p, b) + [Invalidated(reason)]) else EntityOf(p, b)
    ensures Invalidate(EntityOf(p, b), reason).1 == Executed <==>
            !InvalidatedLast(b) && BodyStatus(b) in {Broadcast, ConfirmedStatus}
    ensures Invalidate(EntityOf(p, b), reason).1 == AlreadyApplied <==> InvalidatedLast(b)
  {
    BodyStatusFacts(p, b);
    ChainGuards(p, b);
    InvalidateOn(EntityOf(p, b), reason, InvalidatedLast(b), BodyStatus(b));
  }

  lemma InvalidateStep(p: Policy, b: Body, reason: InvalidationReason)
    requires WellFormed(p, b)
    ensures Apply(EntityOf(p, b), DoInvalidate(reason)).0 == EntityOf(p, NextBody(p, b, DoInvalidate(reason)))
  {
    InvalidateAnswers(p, b, reason);
    InvalidateIsDue(p, b, reason);
    InvalidateShape(p, b, reason);
  }

  /** Commands on the entity of a shape move along the shape automaton. */
  lemma CommandStep(p: Policy, b: Body, c: Command)
    requires WellFormed(p, b)
    ensures Apply(EntityOf(p, b), c).0 == EntityOf(p, NextBody(p, b, c))
  {
    match c
    case DoRecordPsbtCreated(hash) => RecordStep(p, b, hash);
    case DoAddSignature(fp, hash) => SignStep(p, b, fp, hash);
    case DoFinalize(txid, hash, used) => FinalizeStep(p, b, txid, hash, used);
    case DoCancel(user, why) => CancelStep(p, b, user, why);
    case DoMarkBroadcastSeen(txid) => SightStep(p, b, txid);
    case DoConfirm(txid, height, blockHash) => ConfirmStep(p, b, txid, height, blockHash);
    case DoInvalidate(reason) => InvalidateStep(p, b, reason);
  }

  lemma NextIsWellFormed(p: Policy, b: Body, c: Command)
    requires WellFormed(p, b)
    ensures WellFormed(p, NextBody(p, b, c))
  {
    match c
    case DoRecordPsbtCreated(hash) =>
    case DoAddSignature(fp, hash) =>
      var sigs := BodySignatures(b);
      SignersSnoc(sigs, SignatureRecord(fp, hash));
      SignedIffSigner(sigs, fp);
      DistinctSnoc(Signers(sigs), fp);
    case DoFinalize(txid, hash, used) =>
      if Finalize(EntityOf(p, b), txid, hash, used).1.Executed? {
        FinalizeRecords(EntityOf(p, b), txid, hash, used);
      }
    case DoCancel(user, why) =>
    case _ => ObservedWellFormed(p, b, c);
  }

  lemma ObservedWellFormed(p: Policy, b: Body, c: Command)
    requires WellFormed(p, b) && Observes(c)
    ensures WellFormed(p, NextBody(p, b, c))
  {
    if b.Settled? && MayFollow(b.chain, Observation(c), b.record.txid) {
      ChainWordSnoc(b.chain, Observation(c), b.record.txid);
    }
  }

  lemma {:induction false} RunHasShape(p: Policy, b: Body, cs: seq<Command>) returns (b': Body)
    requires WellFormed(p, b)
    ensures WellFormed(p, b') && Run(EntityOf(p, b), cs) == EntityOf(p, b')
    decreases |cs|
  {
    if cs == [] {
      b' := b;
    } else {
      CommandStep(p, b, cs[0]);
      NextIsWellFormed(p, b, cs[0]);
      b' := RunHasShape(p, NextBody(p, b, cs[0]), cs[1..]);
    }
  }

  // --- every shape is reached ---

  /** The shape one event earlier, and the command that leads on from it. */
  lemma Predecessor(p: Policy, b: Body) returns (b0: Body, c: Command)
    requires WellFormed(p, b) && !b.AwaitingPsbt?
    ensures WellFormed(p, b0) && NextBody(p, b0, c) == b
    ensures |Render(p, b0)| < |Render(p, b)|
  {
    match b
    case CancelledEarly(user, why) => b0, c := AwaitingPsbt, DoCancel(user, why);
    case CancelledSigning(hash, sigs, user, why) => b0, c := Signing(hash, sigs), DoCancel(user, why);
    case Signing(hash, sigs) =>
      if sigs == [] {
        b0, c := AwaitingPsbt, DoRecordPsbtCreated(hash);
      } else {
        var last := sigs[|sigs| - 1];
        var before := sigs[..|sigs| - 1];
        assert sigs == before + [last];
        SignersSnoc(before, last);
        SignedIffSigner(before, last.fingerprint);
        DistinctSnoc(Signers(before), last.fingerprint);
        b0, c := Signing(hash, before), DoAddSignature(last.fingerprint, last.signedHash);
      }
    case Settled(hash, sigs, record, withdrawal, chain) =>
      b0, c := SettledPredecessor(p, b);
  }

  lemma SettledPredecessor(p: Policy, b: Body) returns (b0: Body, c: Command)
    requires WellFormed(p, b) && b.Settled?
    ensures WellFormed(p, b0) && NextBody(p, b0, c) == b
    ensures |Render(p, b0)| < |Render(p, b)|
  {
    var record, chain := b.record, b.chain;
    if chain != [] {
      var e := chain[|chain| - 1];
      var w := chain[..|chain| - 1];
      assert chain == w + [e];
      ChainWordSnoc(w, e, record.txid);
      b0 := b.(chain := w);
      c := match e
        case BroadcastSeen(txid) => DoMarkBroadcastSeen(txid)
        case Confirmed(txid, height, blockHash) => DoConfirm(txid, height, blockHash)
        case Invalidated(reason) => DoInvalidate(reason)
        case _ => DoInvalidate(Reorged);
      RenderChainSnoc(p, b0, e);
    } else if b.withdrawal != [] {
      var e := b.withdrawal[0];
      b0, c := b.(withdrawal := []), DoCancel(e.cancelledBy, e.why);
      assert b.withdrawal == [e];
    } else {
      b0, c := Signing(b.hash, b.sigs), DoFinalize(record.txid, record.finalTxHash, record.sigsUsed);
      SortedIsFixed(record.sigsUsed);
      FinalizeIsDue(p, b0, record);
    }
  }

  lemma SortedIsFixed(s: seq<Fingerprint>)
    requires SortedBy(s, FingerprintLe)
    ensures Sort(s, FingerprintLe) == s
  {
    FingerprintOrder();
    SortSorts(s, FingerprintLe);
    SortedUnique(s, Sort(s, FingerprintLe), FingerprintLe);
  }

  lemma FinalizeIsDue(p: Policy, b: Body, record: FinalizationRecord)
    requires b.Signing? && WellFormed(p, b) && ValidFinalization(p, b.sigs, record)
    ensures Finalize(EntityOf(p, b), record.txid, record.finalTxHash, record.sigsUsed).1.Executed?
  {
    ShapeFacts(p, b, AnyFinalized, NoEvent);
    FinalizeExecutesIff(EntityOf(p, b), record.txid, record.finalTxHash, record.sigsUsed);
  }

  lemma {:induction false} ShapeIsReached(p: Policy, b: Body) returns (cs: seq<Command>)
    requires WellFormed(p, b)
    ensures Run(Proposed(p), cs) == EntityOf(p, b)
    decreases |Render(p, b)|
  {
    if b.AwaitingPsbt? {
      cs := [];
    } else {
      var b0, c := Predecessor(p, b);
      var cs0 := ShapeIsReached(p, b0);
      CommandStep(p, b0, c);
      RunSnoc(Proposed(p), cs0, c);
      cs := cs0 + [c];
    }
  }

  /** Exact language: a log can be reached by commands if and only if it is a
      well-formed shape written out. */
  lemma LogLanguage(es: Log)
    ensures Reachable(es) <==> InLanguage(es)
  {
    if Reachable(es) {
      var p: Policy, cs: seq<Command> :| ValidPolicy(p) && Run(Proposed(p), cs).events == es;
      var b := RunHasShape(p, AwaitingPsbt, cs);
      assert WellFormed(p, b) && Render(p, b) == es;
    }
    if InLanguage(es) {
      var p: Policy, b: Body :| WellFormed(p, b) && Render(p, b) == es;
      var cs := ShapeIsReached(p, b);
      assert Run(Proposed(p), cs).events == es;
    }
  }

  // --- consequences for reachable sessions ---

  lemma ChainEventMeansChain(p: Policy, b: Body, i: nat)
    requires WellFormed(p, b) && i < |Render(p, b)| && IsChainEvent(Render(p, b)[i])
    ensures ChainDecides(Render(p, b))
  {
    var head := Head(p, b);
    RenderSplits(p, b);
    if i < |head| {
      var a := if head[i].BroadcastSeen? then AnyBroadcastSeen
               else if head[i].Confirmed? then AnyConfirmed else AnyInvalidated;
      HeadFacts(p, b, a, NoEvent);
      NoResetMeaning(head, a);
      assert Matches(a, head[i]);
      assert false;
    }
    assert ChainOf(b) != [];
    assert IsChainEvent(ChainOf(b)[|ChainOf(b)| - 1]);
  }

  /** Causality: as soon as the log of a session holds any observation of the
      chain, nothing but observations is ever appended to it. */
  lemma ChainSilencesUsers(p: Policy, before: seq<Command>, i: nat, after: seq<Command>)
    requires ValidPolicy(p)
    requires i < |Run(Proposed(p), before).events| && IsChainEvent(Run(Proposed(p), before).events[i])
    ensures var s, t := Run(Proposed(p), before), Run(Proposed(p), before + after);
            s.events <= t.events
            && forall j :: |s.events| <= j < |t.events| ==> IsChainEvent(t.events[j])
  {
    var s := Run(Proposed(p), before);
    var b := RunHasShape(p, AwaitingPsbt, before);
    ChainEventMeansChain(p, b, i);
    RunConcat(Proposed(p), before, after);
    ChainHasTheLastWord(s, after);
  }

  /** A reported invalidation of a live transaction is recorded unless the
      session is merely back in the mempool after an earlier invalidation: the
      guard then takes it for a repeat of that one. */
  lemma InvalidationRecordedIff(p: Policy, cs: seq<Command>, reason: InvalidationReason)
    requires ValidPolicy(p)
    requires StatusOf(Run(Proposed(p), cs).events) in {Broadcast, ConfirmedStatus}
    ensures var s := Run(Proposed(p), cs);
            Invalidate(s, reason).1 == Executed <==>
            !(StatusOf(s.events) == Broadcast && AlreadyRecorded(s.events, AnyInvalidated, NoEvent))
  {
    var b := RunHasShape(p, AwaitingPsbt, cs);
    BodyStatusFacts(p, b);
    InvalidateAnswers(p, b, reason);
    ShapeFacts(p, b, AnyInvalidated, NoEvent);
    LiveInvalidation(p, b);
  }

  lemma LiveInvalidation(p: Policy, b: Body)
    requires WellFormed(p, b) && BodyStatus(b) in {Broadcast, ConfirmedStatus}
    ensures InvalidatedLast(b) <==> BodyStatus(b) == Broadcast && Scan(ChainOf(b), AnyInvalidated, NoEvent) == Hit
  {
    var w := ChainOf(b);
    LastObservation(b);
    NoResetMeaning(w, AnyInvalidated);
    if BodyStatus(b) == Broadcast {
      SightingFollows(w, b.record.txid);
    } else {
      assert w[|w| - 1].Confirmed?;
    }
  }

  lemma SightingFollows(w: Log, txid: Txid)
    requires ChainWord(w, txid) && w != [] && w[|w| - 1].BroadcastSeen?
    ensures Scan(w, AnyInvalidated, AnyConfirmed) == Hit <==> exists i :: 0 <= i < |w| && Matches(AnyInvalidated, w[i])
  {
    var n := |w| - 1;
    var v := w[..n];
    if n == 0 {
      assert Scan(v, AnyInvalidated, AnyConfirmed) == Exhausted;
    } else {
      assert w[n - 1].Invalidated?;
      assert Matches(AnyInvalidated, w[n - 1]) && v[n - 1] == w[n - 1];
      assert Scan(v, AnyInvalidated, AnyConfirmed) == Hit;
    }
  }

  lemma ReturnedToMempool(t: Txid) returns (w: Log)
    ensures w == [Confirmed(t, 0, 0), Invalidated(Reorged), BroadcastSeen(t)]
    ensures ChainWord(w, t)
  {
    w := [Confirmed(t, 0, 0), Invalidated(Reorged), BroadcastSeen(t)];
    assert SeenBefore(w, 1) by { assert w[0].Confirmed?; }
  }

  /** Such a session: confirmed, reorganised out, seen in the mempool again.
      Its eviction is reported, and the log stays as it is. */
  lemma InvalidationSwallowed(p: Policy, hash: PsbtHash, sigs: seq<SignatureRecord>, record: FinalizationRecord)
      returns (cs: seq<Command>)
    requires WellFormed(p, Settled(hash, sigs, record, [], []))
    ensures StatusOf(Run(Proposed(p), cs).events) == Broadcast
    ensures Invalidate(Run(Proposed(p), cs), MempoolEvicted).1 == AlreadyApplied
  {
    var w := ReturnedToMempool(record.txid);
    var b := Settled(hash, sigs, record, [], w);
    cs := ShapeIsReached(p, b);
    BodyStatusFacts(p, b);
    InvalidateAnswers(p, b, MempoolEvicted);
    assert Matches(AnyInvalidated, w[1]);
    SightingFollows(w, record.txid);
  }

  /** A mempool sighting of a transaction that is settled or invalidated is recorded
      unless the session is invalidated and the transaction was sighted ever before:
      the guard, which nothing resets, takes it for a repeat of that one. */
  lemma SightingRecordedIff(p: Policy, cs: seq<Command>, txid: Txid)
    requires ValidPolicy(p)
    requires var s := Run(Proposed(p), cs);
             && s.finalization.Some? && s.finalization.value.txid == txid
             && StatusOf(s.events) !in {Broadcast, ConfirmedStatus}
    ensures var s := Run(Proposed(p), cs);
            var repeat :=
              StatusOf(s.events) == InvalidatedStatus && AlreadyRecorded(s.events, AnyBroadcastSeen, NoEvent);
            MarkBroadcastSeen(s, txid).1 == if repeat then AlreadyApplied else Executed
  {
    var b := RunHasShape(p, AwaitingPsbt, cs);
    BodyStatusFacts(p, b);
    SightAnswers(p, b, txid);
    if b.chain != [] { LastObservation(b); }
  }

  /** Outcome of a sighting of the finalized transaction, from the chain word. */
  lemma SightAnswers(p: Policy, b: Body, txid: Txid)
    requires WellFormed(p, b) && b.Settled? && b.record.txid == txid && BodyStatus(b) != ConfirmedStatus
    ensures AlreadyRecorded(Render(p, b), AnyBroadcastSeen, NoEvent)
            <==> Scan(b.chain, AnyBroadcastSeen, NoEvent) == Hit
    ensures b.chain == [] ==> Scan(b.chain, AnyBroadcastSeen, NoEvent) != Hit
    ensures MarkBroadcastSeen(EntityOf(p, b), txid).1
            == if Scan(b.chain, AnyBroadcastSeen, NoEvent) == Hit then AlreadyApplied else Executed
  {
    ChainGuards(p, b);
    BodyStatusFacts(p, b);
    SightOn(EntityOf(p, b), txid, Scan(b.chain, AnyBroadcastSeen, NoEvent) == Hit, BodyStatus(b));
  }

  lemma SightOn(s: Session, txid: Txid, hit: bool, status: Status)
    requires s.finalization.Some? && s.finalization.value.txid == txid
    requires AlreadyRecorded(s.events, AnyBroadcastSeen, NoEvent) <==> hit
    requires StatusOf(s.events) == status
    ensures MarkBroadcastSeen(s, txid).1 == if hit || status == ConfirmedStatus then AlreadyApplied else Executed
  {
  }

  lemma ReorganisedOut(t: Txid) returns (w: Log)
    ensures w == [BroadcastSeen(t), Confirmed(t, 0, 0), Invalidated(Reorged)]
    ensures ChainWord(w, t)
  {
    w := [BroadcastSeen(t), Confirmed(t, 0, 0), Invalidated(Reorged)];
    assert SeenBefore(w, 2) by { assert w[0].BroadcastSeen?; }
  }

  /** Such a session: sighted, confirmed, reorganised out. It is sighted again, and
      stays invalidated. */
  lemma SightingSwallowed(p: Policy, hash: PsbtHash, sigs: seq<SignatureRecord>, record: FinalizationRecord)
      returns (cs: seq<Command>)
    requires WellFormed(p, Settled(hash, sigs, record, [], []))
    ensures var s := Run(Proposed(p), cs);
            && StatusOf(s.events) == InvalidatedStatus
            && MarkBroadcastSeen(s, record.txid) == (s, AlreadyApplied)
  {
    var w := ReorganisedOut(record.txid);
    var b := Settled(hash, sigs, record, [], w);
    cs := ShapeIsReached(p, b);
    BodyStatusFacts(p, b);
    SightAnswers(p, b, record.txid);
    NoResetMeaning(w, AnyBroadcastSeen);
    assert Matches(AnyBroadcastSeen, w[0]);
  }
}
