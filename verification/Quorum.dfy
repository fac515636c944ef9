/** When finalization succeeds: the exact condition on accepted documents, the
    signers it records, and why later signatures change nothing. */
module Quorum {
  import opened Foundation
  import opened Documents
  import opened Sorting
  import opened Storage
  import opened Submission
  import opened Combination
  import opened SessionModel
  import opened SessionHistory
  import opened Finalization

  // --- more signatures never change a completed search ---

  /** The search looks at no record after the prefix that completed it. */
  lemma {:induction false} LaterSignaturesIgnored(c: Crypto, blobs: Blobs, unsigned: Psbt, combined: Psbt,
                                                  records: seq<SignatureRecord>, later: seq<SignatureRecord>,
                                                  used: seq<Fingerprint>)
    requires |combined.inputs| == |unsigned.inputs|
    requires SearchPrefix(c, blobs, unsigned, combined, records, used).Complete?
    ensures SearchPrefix(c, blobs, unsigned, combined, records + later, used)
            == SearchPrefix(c, blobs, unsigned, combined, records, used)
    decreases |records|
  {
    var doc := LoadPsbt(blobs, records[0].signedHash).value;
    var combined' := CombineWith(combined, doc);
    assert (records + later)[1..] == records[1..] + later;
    if !Finalizable(combined') {
      LaterSignaturesIgnored(c, blobs, unsigned, combined', records[1..], later, used + [records[0].fingerprint]);
    }
  }

  // --- what a completed search used ---

  ghost predicate AllLoad(blobs: Blobs, records: seq<SignatureRecord>) {
    forall k :: 0 <= k < |records| ==> LoadPsbt(blobs, records[k].signedHash).Success?
  }

  /** The documents the records name. */
  ghost function DocsOf(blobs: Blobs, records: seq<SignatureRecord>): (docs: seq<Psbt>)
    requires AllLoad(blobs, records)
    ensures |docs| == |records|
    ensures forall k :: 0 <= k < |docs| ==> LoadPsbt(blobs, records[k].signedHash) == Success(docs[k])
  {
    seq(|records|, k requires 0 <= k < |records| => LoadPsbt(blobs, records[k].signedHash).value)
  }

  ghost predicate SameInputs(unsigned: Psbt, docs: seq<Psbt>) {
    forall k :: 0 <= k < |docs| ==> |docs[k].inputs| == |unsigned.inputs|
  }

  /** `combined` and `used` are the combination and the signers of `records`. */
  ghost predicate CombinesExactly(blobs: Blobs, unsigned: Psbt, records: seq<SignatureRecord>, combined: Psbt,
                                  used: seq<Fingerprint>)
  {
    && AllLoad(blobs, records)
    && SameInputs(unsigned, DocsOf(blobs, records))
    && combined == CombineAll(unsigned, DocsOf(blobs, records))
    && used == Signers(records)
  }

  lemma CombineAllSnoc(original: Psbt, docs: seq<Psbt>, n: nat)
    requires forall k :: 0 <= k < |docs| ==> |docs[k].inputs| == |original.inputs|
    requires n < |docs|
    ensures CombineAll(original, docs[..n + 1]) == CombineWith(CombineAll(original, docs[..n]), docs[n])
  {
    assert docs[..n + 1][..n] == docs[..n];
  }

  lemma CombinesOneMore(blobs: Blobs, unsigned: Psbt, records: seq<SignatureRecord>, k: nat, combined: Psbt,
                        used: seq<Fingerprint>, doc: Psbt)
    requires k < |records| && CombinesExactly(blobs, unsigned, records[..k], combined, used)
    requires LoadPsbt(blobs, records[k].signedHash) == Success(doc) && |doc.inputs| == |unsigned.inputs|
    ensures |combined.inputs| == |unsigned.inputs|
    ensures AllLoad(blobs, records[..k + 1])
    ensures DocsOf(blobs, records[..k + 1])[..k] == DocsOf(blobs, records[..k])
    ensures CombinesExactly(blobs, unsigned, records[..k + 1], CombineWith(combined, doc),
                            used + [records[k].fingerprint])
  {
    var before, after := DocsOf(blobs, records[..k]), records[..k + 1];
    forall j | 0 <= j < |after| ensures LoadPsbt(blobs, after[j].signedHash).Success? {
      if j < k { assert after[j] == records[..k][j]; }
    }
    var docs := DocsOf(blobs, after);
    forall j | 0 <= j < k ensures docs[j] == before[j] { assert after[j] == records[..k][j]; }
    assert docs[..k] == before && docs[k] == doc;
    assert docs == docs[..k + 1];
    CombineAllSnoc(unsigned, docs, k);
    assert Signers(after) == used + [records[k].fingerprint];
  }

  /** No prefix of the documents, in this order, finalizes. */
  ghost predicate NoneFinalizes(unsigned: Psbt, docs: seq<Psbt>)
    requires SameInputs(unsigned, docs)
  {
    forall m :: 0 < m <= |docs| ==> !Finalizable(CombineAll(unsigned, docs[..m]))
  }

  /** The documents finalize together, and no shorter prefix of them does. */
  ghost predicate FirstToFinalize(unsigned: Psbt, docs: seq<Psbt>)
    requires SameInputs(unsigned, docs)
  {
    && docs != [] && Finalizable(CombineAll(unsigned, docs))
    && NoneFinalizes(unsigned, docs[..|docs| - 1])
  }

  lemma NoneFinalizesSnoc(unsigned: Psbt, docs: seq<Psbt>)
    requires SameInputs(unsigned, docs) && docs != [] && NoneFinalizes(unsigned, docs[..|docs| - 1])
    requires !Finalizable(CombineAll(unsigned, docs))
    ensures NoneFinalizes(unsigned, docs)
  {
    var n := |docs| - 1;
    forall m | 0 < m <= |docs| ensures !Finalizable(CombineAll(unsigned, docs[..m])) {
      if m <= n { assert docs[..n][..m] == docs[..m]; } else { assert docs[..m] == docs; }
    }
  }

  /** Whatever the store returned: a completed search used the first `n` records,
      for some `n`, its document is the combination of exactly theirs, and no
      shorter prefix finalizes. */
  lemma {:induction false} SearchUsesPrefix(c: Crypto, blobs: Blobs, unsigned: Psbt, combined: Psbt,
                                            records: seq<SignatureRecord>, k: nat, used: seq<Fingerprint>)
      returns (n: nat)
    requires k <= |records| && |combined.inputs| == |unsigned.inputs|
    requires CombinesExactly(blobs, unsigned, records[..k], combined, used)
    requires NoneFinalizes(unsigned, DocsOf(blobs, records[..k]))
    requires SearchPrefix(c, blobs, unsigned, combined, records[k..], used).Complete?
    ensures var r := SearchPrefix(c, blobs, unsigned, combined, records[k..], used);
            && n <= |records|
            && CombinesExactly(blobs, unsigned, records[..n], r.combined, r.used)
            && FirstToFinalize(unsigned, DocsOf(blobs, records[..n]))
    decreases |records| - k
  {
    var doc := LoadPsbt(blobs, records[k].signedHash).value;
    assert records[k..][0] == records[k] && records[k..][1..] == records[k + 1..];
    CombinesOneMore(blobs, unsigned, records, k, combined, used, doc);
    var combined', used' := CombineWith(combined, doc), used + [records[k].fingerprint];
    var docs := DocsOf(blobs, records[..k + 1]);
    if Finalizable(combined') {
      n := k + 1;
    } else {
      NoneFinalizesSnoc(unsigned, docs);
      n := SearchUsesPrefix(c, blobs, unsigned, combined', records, k + 1, used');
    }
  }

  // --- what the creation job builds, as far as signing goes ---

  /** No signatures yet; a `threshold` multisig whose script keys are exactly the
      attributed keys, at most one of them attributed to any one keystore. A key
      may occur in the script more than once. */
  ghost predicate MultisigInput(o: InputMap, threshold: nat) {
    && o.partialSigs == map[]
    && o.witnessScript.Some?
    && o.witnessScript.value.threshold == threshold
    && (forall k :: k in o.witnessScript.value.keys <==> k in o.derivation)
    && (forall a, b :: (a in o.derivation && b in o.derivation
                        && o.derivation[a].fingerprint == o.derivation[b].fingerprint) ==> a == b)
  }

  ghost predicate MultisigSpend(unsigned: Psbt, threshold: nat) {
    forall i :: 0 <= i < |unsigned.inputs| ==> MultisigInput(unsigned.inputs[i], threshold)
  }

  /** The recorded documents load, and are accepted submissions of the recorded
      signers. */
  ghost predicate HonestRecords(c: Crypto, blobs: Blobs, unsigned: Psbt,
                                records: seq<SignatureRecord>, docs: seq<Psbt>)
  {
    && Accepted(c, unsigned, Signers(records), docs)
    && forall k :: 0 <= k < |docs| ==> LoadPsbt(blobs, records[k].signedHash) == Success(docs[k])
  }

  // --- counting usable signatures ---

  /** The places of input `i`'s script that `d` holds usable signatures for. */
  function Filled(unsigned: Psbt, d: Psbt, i: nat): set<Slot>
    requires i < |unsigned.inputs| == |d.inputs|
  {
    if unsigned.inputs[i].witnessScript.None? then {}
    else SignedSlots(d.inputs[i], unsigned.inputs[i].witnessScript.value)
  }

  function Tally(unsigned: Psbt, docs: seq<Psbt>, i: nat): nat
    requires i < |unsigned.inputs|
    requires forall k :: 0 <= k < |docs| ==> |docs[k].inputs| == |unsigned.inputs|
  {
    if docs == [] then 0
    else Tally(unsigned, docs[..|docs| - 1], i) + |Filled(unsigned, docs[|docs| - 1], i)|
  }

  /** At every input the documents fill at least `threshold` places of the script. */
  ghost predicate QuorumAt(unsigned: Psbt, docs: seq<Psbt>, threshold: nat)
    requires forall k :: 0 <= k < |docs| ==> |docs[k].inputs| == |unsigned.inputs|
  {
    forall i :: 0 <= i < |unsigned.inputs| ==> Tally(unsigned, docs, i) >= threshold
  }

  /** What an accepted signer fills at an input belongs to that signer. */
  lemma SignerFills(c: Crypto, unsigned: Psbt, threshold: nat, d: Psbt, fp: Fingerprint, i: nat)
    requires MultisigSpend(unsigned, threshold) && Acceptable(c, unsigned, d, fp) && i < |unsigned.inputs|
    ensures SlotsOf(unsigned.inputs[i], Filled(unsigned, d, i), [fp])
  {
    var o, s := unsigned.inputs[i], d.inputs[i];
    assert MultisigInput(o, threshold) && InputSound(c, unsigned, i, s, fp);
    forall x | x in Filled(unsigned, d, i) ensures x.point in o.derivation && o.derivation[x.point].fingerprint == fp {
      assert PublicKey(true, x.point) in Added(o, s);
      assert BoundTo(o, PublicKey(true, x.point), fp);
    }
  }

  lemma SlotsAddUp(m: InputMap, s: InputMap, ws: MultisigScript)
    ensures SignedSlots(CombineInput(m, s), ws) == SignedSlots(m, ws) + SignedSlots(s, ws)
  {
    var all, a, b := SignedSlots(CombineInput(m, s), ws), SignedSlots(m, ws), SignedSlots(s, ws);
    forall x | x in all ensures x in a + b {
      assert Signs(m, x.point) || Signs(s, x.point);
    }
    forall x | x in a + b ensures x in all {
      assert Signs(CombineInput(m, s), x.point);
    }
  }

  /** The places belong to keys attributed to `signers`. */
  ghost predicate SlotsOf(o: InputMap, slots: set<Slot>, signers: seq<Fingerprint>) {
    forall x :: x in slots ==> x.point in o.derivation && o.derivation[x.point].fingerprint in signers
  }

  lemma SlotsOfSnoc(o: InputMap, before: set<Slot>, extra: set<Slot>, signers: seq<Fingerprint>, fp: Fingerprint)
    requires SlotsOf(o, before, signers) && SlotsOf(o, extra, [fp]) && fp !in signers
    ensures before !! extra && SlotsOf(o, before + extra, signers + [fp])
  {
    forall x | x in before ensures x !in extra {
      assert o.derivation[x.point].fingerprint in signers;
    }
  }

  lemma TallyStep(o: InputMap, ws: MultisigScript, m: InputMap, s: InputMap, signers: seq<Fingerprint>, fp: Fingerprint)
    requires SlotsOf(o, SignedSlots(m, ws), signers) && SlotsOf(o, SignedSlots(s, ws), [fp]) && fp !in signers
    ensures |SignedSlots(CombineInput(m, s), ws)| == |SignedSlots(m, ws)| + |SignedSlots(s, ws)|
    ensures SlotsOf(o, SignedSlots(CombineInput(m, s), ws), signers + [fp])
  {
    SlotsAddUp(m, s, ws);
    SlotsOfSnoc(o, SignedSlots(m, ws), SignedSlots(s, ws), signers, fp);
  }

  lemma CombineAllAt(original: Psbt, docs: seq<Psbt>, n: nat, i: nat)
    requires forall k :: 0 <= k < |docs| ==> |docs[k].inputs| == |original.inputs|
    requires n + 1 == |docs| && i < |original.inputs|
    ensures CombineAll(original, docs).inputs[i]
            == CombineInput(CombineAll(original, docs[..n]).inputs[i], docs[n].inputs[i])
  {
    CombineAllSnoc(original, docs, n);
    assert docs[..n + 1] == docs;
  }

  /** The places a combination fills are as many as the tally, and whose they are. */
  ghost predicate Tallied(o: InputMap, m: InputMap, tally: nat, signers: seq<Fingerprint>)
    requires o.witnessScript.Some?
  {
    && m.witnessScript == o.witnessScript
    && |SignedSlots(m, o.witnessScript.value)| == tally
    && SlotsOf(o, SignedSlots(m, o.witnessScript.value), signers)
  }

  lemma LastSigner(signers: seq<Fingerprint>, n: nat)
    requires Distinct(signers) && n + 1 == |signers|
    ensures signers == signers[..n] + [signers[n]] && signers[n] !in signers[..n]
  {
    assert signers == signers[..n] + [signers[n]];
    DistinctSnoc(signers[..n], signers[n]);
  }

  lemma {:induction false} CombinedTally(c: Crypto, unsigned: Psbt, threshold: nat,
                                         signers: seq<Fingerprint>, docs: seq<Psbt>, i: nat)
    requires MultisigSpend(unsigned, threshold) && Accepted(c, unsigned, signers, docs) && i < |unsigned.inputs|
    requires forall j :: 0 <= j < |docs| ==> |docs[j].inputs| == |unsigned.inputs|
    requires unsigned.inputs[i].witnessScript.Some?
    ensures Tallied(unsigned.inputs[i], CombineAll(unsigned, docs).inputs[i], Tally(unsigned, docs, i), signers)
    decreases |docs|
  {
    var o := unsigned.inputs[i];
    var ws := o.witnessScript.value;
    if docs == [] {
      assert MultisigInput(o, threshold);
      assert SignedSlots(o, ws) == {};
    } else {
      var n := |docs| - 1;
      AcceptedPrefix(c, unsigned, signers, docs, n);
      CombinedTally(c, unsigned, threshold, signers[..n], docs[..n], i);
      SignerFills(c, unsigned, threshold, docs[n], signers[n], i);
      LastSigner(signers, n);
      CombineAllAt(unsigned, docs, n, i);
      TallyStep(o, ws, CombineAll(unsigned, docs[..n]).inputs[i], docs[n].inputs[i], signers[..n], signers[n]);
    }
  }

  /** A combination of accepted documents finalizes exactly at a quorum. */
  lemma FinalizableIffQuorum(c: Crypto, unsigned: Psbt, threshold: nat, signers: seq<Fingerprint>, docs: seq<Psbt>)
    requires MultisigSpend(unsigned, threshold) && Accepted(c, unsigned, signers, docs)
    requires forall j :: 0 <= j < |docs| ==> |docs[j].inputs| == |unsigned.inputs|
    ensures Finalizable(CombineAll(unsigned, docs)) <==> QuorumAt(unsigned, docs, threshold)
  {
    forall i | 0 <= i < |unsigned.inputs|
      ensures InputSatisfied(CombineAll(unsigned, docs).inputs[i]) <==> Tally(unsigned, docs, i) >= threshold
    {
      assert MultisigInput(unsigned.inputs[i], threshold);
      CombinedTally(c, unsigned, threshold, signers, docs, i);
    }
  }

  lemma {:induction false} TallyGrows(unsigned: Psbt, docs: seq<Psbt>, n: nat, i: nat)
    requires n <= |docs| && i < |unsigned.inputs|
    requires forall k :: 0 <= k < |docs| ==> |docs[k].inputs| == |unsigned.inputs|
    ensures Tally(unsigned, docs[..n], i) <= Tally(unsigned, docs, i)
    decreases |docs|
  {
    if n == |docs| {
      assert docs[..n] == docs;
    } else {
      var m := |docs| - 1;
      TallyGrows(unsigned, docs[..m], n, i);
      assert docs[..m][..n] == docs[..n];
    }
  }

  lemma SearchStep(c: Crypto, blobs: Blobs, unsigned: Psbt, combined: Psbt, records: seq<SignatureRecord>,
                   n: nat, used: seq<Fingerprint>, doc: Psbt)
    requires |combined.inputs| == |unsigned.inputs| && n < |records|
    requires LoadPsbt(blobs, records[n].signedHash) == Success(doc) && VerifiesAgainst(c, unsigned, doc)
    ensures var combined', used' := CombineWith(combined, doc), used + [records[n].fingerprint];
            SearchPrefix(c, blobs, unsigned, combined, records[n..], used)
            == if Finalizable(combined') then Complete(combined', used')
               else SearchPrefix(c, blobs, unsigned, combined', records[n + 1..], used')
  {
    assert records[n..][0] == records[n] && records[n..][1..] == records[n + 1..];
  }

  /** The search state after the first `n` honest records. */
  ghost function SearchFrom(c: Crypto, blobs: Blobs, unsigned: Psbt, records: seq<SignatureRecord>,
                            docs: seq<Psbt>, n: nat): Search
    requires forall k :: 0 <= k < |docs| ==> |docs[k].inputs| == |unsigned.inputs|
    requires n <= |docs| == |records|
  {
    SearchPrefix(c, blobs, unsigned, CombineAll(unsigned, docs[..n]), records[n..], Signers(records)[..n])
  }

  lemma HonestLoad(c: Crypto, blobs: Blobs, unsigned: Psbt, records: seq<SignatureRecord>, docs: seq<Psbt>, n: nat)
    requires HonestRecords(c, blobs, unsigned, records, docs) && n < |docs|
    ensures LoadPsbt(blobs, records[n].signedHash) == Success(docs[n]) && VerifiesAgainst(c, unsigned, docs[n])
  {
    AcceptedIsSafe(c, unsigned, docs[n], Signers(records)[n]);
  }

  lemma LoadedStep(c: Crypto, blobs: Blobs, unsigned: Psbt, records: seq<SignatureRecord>, docs: seq<Psbt>, n: nat)
    requires forall k :: 0 <= k < |docs| ==> |docs[k].inputs| == |unsigned.inputs|
    requires n < |docs| == |records|
    requires LoadPsbt(blobs, records[n].signedHash) == Success(docs[n]) && VerifiesAgainst(c, unsigned, docs[n])
    ensures SearchFrom(c, blobs, unsigned, records, docs, n)
            == if Finalizable(CombineAll(unsigned, docs[..n + 1]))
               then Complete(CombineAll(unsigned, docs[..n + 1]), Signers(records)[..n + 1])
               else SearchFrom(c, blobs, unsigned, records, docs, n + 1)
  {
    CombineAllSnoc(unsigned, docs, n);
    SignersStep(records, n);
    SearchStep(c, blobs, unsigned, CombineAll(unsigned, docs[..n]), records, n, Signers(records)[..n], docs[n]);
  }

  lemma SignersStep(records: seq<SignatureRecord>, n: nat)
    requires n < |records|
    ensures Signers(records)[..n] + [records[n].fingerprint] == Signers(records)[..n + 1]
  {
  }

  lemma HonestStep(c: Crypto, blobs: Blobs, unsigned: Psbt,
                   records: seq<SignatureRecord>, docs: seq<Psbt>, n: nat)
    requires HonestRecords(c, blobs, unsigned, records, docs)
    requires forall k :: 0 <= k < |docs| ==> |docs[k].inputs| == |unsigned.inputs|
    requires n < |docs|
    ensures SearchFrom(c, blobs, unsigned, records, docs, n)
            == if Finalizable(CombineAll(unsigned, docs[..n + 1]))
               then Complete(CombineAll(unsigned, docs[..n + 1]), Signers(records)[..n + 1])
               else SearchFrom(c, blobs, unsigned, records, docs, n + 1)
  {
    HonestLoad(c, blobs, unsigned, records, docs, n);
    LoadedStep(c, blobs, unsigned, records, docs, n);
  }

  lemma PrefixQuorum(c: Crypto, blobs: Blobs, unsigned: Psbt, threshold: nat,
                     records: seq<SignatureRecord>, docs: seq<Psbt>, n: nat)
    requires MultisigSpend(unsigned, threshold) && HonestRecords(c, blobs, unsigned, records, docs)
    requires forall k :: 0 <= k < |docs| ==> |docs[k].inputs| == |unsigned.inputs|
    requires n <= |docs|
    ensures Finalizable(CombineAll(unsigned, docs[..n])) <==> QuorumAt(unsigned, docs[..n], threshold)
  {
    AcceptedPrefix(c, unsigned, Signers(records), docs, n);
    FinalizableIffQuorum(c, unsigned, threshold, Signers(records)[..n], docs[..n]);
  }

  /** The search passes over every prefix that is not a quorum. */
  lemma {:induction false} SearchSkips(c: Crypto, blobs: Blobs, unsigned: Psbt, threshold: nat,
                                       records: seq<SignatureRecord>, docs: seq<Psbt>, k: nat)
    requires MultisigSpend(unsigned, threshold) && HonestRecords(c, blobs, unsigned, records, docs)
    requires forall j :: 0 <= j < |docs| ==> |docs[j].inputs| == |unsigned.inputs|
    requires k <= |docs| && forall j :: 0 < j <= k ==> !QuorumAt(unsigned, docs[..j], threshold)
    ensures SearchFrom(c, blobs, unsigned, records, docs, 0) == SearchFrom(c, blobs, unsigned, records, docs, k)
    decreases k
  {
    if k > 0 {
      SearchSkips(c, blobs, unsigned, threshold, records, docs, k - 1);
      HonestStep(c, blobs, unsigned, records, docs, k - 1);
      PrefixQuorum(c, blobs, unsigned, threshold, records, docs, k);
    }
  }

  /** The first `k` documents are a quorum, and no shorter prefix is. */
  ghost predicate LeastQuorum(unsigned: Psbt, docs: seq<Psbt>, threshold: nat, k: nat)
    requires forall j :: 0 <= j < |docs| ==> |docs[j].inputs| == |unsigned.inputs|
  {
    && 0 < k <= |docs|
    && QuorumAt(unsigned, docs[..k], threshold)
    && forall j :: 0 < j < k ==> !QuorumAt(unsigned, docs[..j], threshold)
  }

  lemma {:induction false} LeastQuorumExists(unsigned: Psbt, docs: seq<Psbt>, threshold: nat, m: nat) returns (k: nat)
    requires forall j :: 0 <= j < |docs| ==> |docs[j].inputs| == |unsigned.inputs|
    requires 0 < m <= |docs| && QuorumAt(unsigned, docs[..m], threshold)
    ensures LeastQuorum(unsigned, docs, threshold, k) && k <= m
    decreases m
  {
    if j :| 0 < j < m && QuorumAt(unsigned, docs[..j], threshold) {
      k := LeastQuorumExists(unsigned, docs, threshold, j);
    } else {
      k := m;
    }
  }

  /** The search over honest records completes at the least quorum prefix: the
      signers recorded as used are the fewest, in recording order, that finalize. */
  lemma SearchFindsLeastQuorum(c: Crypto, blobs: Blobs, unsigned: Psbt, threshold: nat,
                               records: seq<SignatureRecord>, docs: seq<Psbt>, k: nat)
    requires MultisigSpend(unsigned, threshold) && HonestRecords(c, blobs, unsigned, records, docs)
    requires forall j :: 0 <= j < |docs| ==> |docs[j].inputs| == |unsigned.inputs|
    requires LeastQuorum(unsigned, docs, threshold, k)
    ensures SearchPrefix(c, blobs, unsigned, unsigned, records, [])
            == Complete(CombineAll(unsigned, docs[..k]), Signers(records)[..k])
  {
    SearchStart(c, blobs, unsigned, records, docs);
    SearchSkips(c, blobs, unsigned, threshold, records, docs, k - 1);
    HonestStep(c, blobs, unsigned, records, docs, k - 1);
    PrefixQuorum(c, blobs, unsigned, threshold, records, docs, k);
  }

  lemma SearchExhausts(c: Crypto, blobs: Blobs, unsigned: Psbt, threshold: nat,
                       records: seq<SignatureRecord>, docs: seq<Psbt>)
    requires MultisigSpend(unsigned, threshold) && HonestRecords(c, blobs, unsigned, records, docs)
    requires forall j :: 0 <= j < |docs| ==> |docs[j].inputs| == |unsigned.inputs|
    requires forall j :: 0 < j <= |docs| ==> !QuorumAt(unsigned, docs[..j], threshold)
    ensures SearchPrefix(c, blobs, unsigned, unsigned, records, []) == Exhausting
  {
    SearchStart(c, blobs, unsigned, records, docs);
    SearchSkips(c, blobs, unsigned, threshold, records, docs, |docs|);
    assert records[|docs|..] == [];
  }

  lemma SearchStart(c: Crypto, blobs: Blobs, unsigned: Psbt, records: seq<SignatureRecord>, docs: seq<Psbt>)
    requires forall k :: 0 <= k < |docs| ==> |docs[k].inputs| == |unsigned.inputs|
    requires |docs| == |records|
    ensures SearchFrom(c, blobs, unsigned, records, docs, 0) == SearchPrefix(c, blobs, unsigned, unsigned, records, [])
  {
    assert docs[..0] == [] && records[0..] == records && Signers(records)[..0] == [];
  }

  lemma QuorumPersists(unsigned: Psbt, docs: seq<Psbt>, threshold: nat, k: nat)
    requires forall j :: 0 <= j < |docs| ==> |docs[j].inputs| == |unsigned.inputs|
    requires k <= |docs| && QuorumAt(unsigned, docs[..k], threshold)
    ensures QuorumAt(unsigned, docs, threshold)
  {
    forall i | 0 <= i < |unsigned.inputs| ensures Tally(unsigned, docs, i) >= threshold {
      TallyGrows(unsigned, docs, k, i);
    }
  }

  /** Exact condition: on honest records the search completes if and only if, at
      every input, the recorded signers fill at least `threshold` places of the
      script with signatures in the form it holds. */
  lemma FinalizationCompletesIff(c: Crypto, blobs: Blobs, unsigned: Psbt, threshold: nat,
                                 records: seq<SignatureRecord>, docs: seq<Psbt>)
    requires threshold > 0 && |unsigned.inputs| > 0
    requires MultisigSpend(unsigned, threshold) && HonestRecords(c, blobs, unsigned, records, docs)
    requires forall j :: 0 <= j < |docs| ==> |docs[j].inputs| == |unsigned.inputs|
    ensures SearchPrefix(c, blobs, unsigned, unsigned, records, []).Complete?
            <==> QuorumAt(unsigned, docs, threshold)
  {
    assert docs[..|docs|] == docs;
    if QuorumAt(unsigned, docs, threshold) {
      assert Tally(unsigned, docs, 0) >= threshold;
      var k := LeastQuorumExists(unsigned, docs, threshold, |docs|);
      SearchFindsLeastQuorum(c, blobs, unsigned, threshold, records, docs, k);
    } else {
      forall j | 0 < j <= |docs| ensures !QuorumAt(unsigned, docs[..j], threshold) {
        if QuorumAt(unsigned, docs[..j], threshold) { QuorumPersists(unsigned, docs, threshold, j); }
      }
      SearchExhausts(c, blobs, unsigned, threshold, records, docs);
    }
  }

  /** The least quorum has `threshold` signers or more exactly when one signer
      fewer than the threshold is not a quorum yet. */
  lemma LeastQuorumReachesThreshold(unsigned: Psbt, docs: seq<Psbt>, threshold: nat, n: nat)
    requires forall j :: 0 <= j < |docs| ==> |docs[j].inputs| == |unsigned.inputs|
    requires 0 < threshold <= |docs| && |unsigned.inputs| > 0 && LeastQuorum(unsigned, docs, threshold, n)
    ensures n >= threshold <==> !QuorumAt(unsigned, docs[..threshold - 1], threshold)
  {
    var early := docs[..threshold - 1];
    if n < threshold {
      assert early[..n] == docs[..n];
      QuorumPersists(unsigned, early, threshold, n);
    } else if threshold == 1 {
      assert Tally(unsigned, early, 0) == 0;
    }
  }

  // --- how many places one signer fills ---

  ghost predicate Attributed(o: InputMap, k: Point, fp: Fingerprint) {
    k in o.derivation && o.derivation[k].fingerprint == fp
  }

  /** How often the key attributed to the keystore occurs in the script. */
  ghost function Copies(o: InputMap, fp: Fingerprint): nat {
    if o.witnessScript.Some? && exists k :: Attributed(o, k, fp) then
      var k :| Attributed(o, k, fp);
      o.witnessScript.value.keys[k]
    else 0
  }

  lemma CopiesAre(o: InputMap, threshold: nat, k: Point, fp: Fingerprint)
    requires MultisigInput(o, threshold) && Attributed(o, k, fp)
    ensures Copies(o, fp) == o.witnessScript.value.keys[k] >= 1
  {
  }

  /** The `n` places of a key. */
  function Places(k: Point, n: nat): set<Slot> { set j | 0 <= j < n :: Slot(k, j) }

  lemma {:induction false} PlacesCount(k: Point, n: nat)
    ensures |Places(k, n)| == n
  {
    if n > 0 {
      PlacesCount(k, n - 1);
      assert Places(k, n) == Places(k, n - 1) + {Slot(k, n - 1)};
    }
  }

  /** An accepted signer whose signature counts fills every place of their key. */
  lemma AcceptedFills(c: Crypto, unsigned: Psbt, threshold: nat, d: Psbt, fp: Fingerprint, i: nat)
    requires MultisigSpend(unsigned, threshold) && Acceptable(c, unsigned, d, fp) && i < |unsigned.inputs|
    requires Filled(unsigned, d, i) != {}
    ensures |Filled(unsigned, d, i)| == Copies(unsigned.inputs[i], fp) >= 1
  {
    var o := unsigned.inputs[i];
    assert MultisigInput(o, threshold);
    SignerFills(c, unsigned, threshold, d, fp, i);
    var x :| x in Filled(unsigned, d, i);
    var k := x.point;
    assert Attributed(o, k, fp);
    CopiesAre(o, threshold, k, fp);
    var n := o.witnessScript.value.keys[k];
    PlacesCount(k, n);
    OnlyOneKey(o, d.inputs[i], k, fp);
  }

  /** Slots that all belong to one keystore are the places of its one key. */
  lemma OnlyOneKey(o: InputMap, m: InputMap, k: Point, fp: Fingerprint)
    requires o.witnessScript.Some? && Attributed(o, k, fp) && Signs(m, k)
    requires forall a, b :: Attributed(o, a, fp) && Attributed(o, b, fp) ==> a == b
    requires SlotsOf(o, SignedSlots(m, o.witnessScript.value), [fp])
    ensures SignedSlots(m, o.witnessScript.value) == Places(k, o.witnessScript.value.keys[k])
  {
    var keys := o.witnessScript.value.keys;
    var filled := SignedSlots(m, o.witnessScript.value);
    var places := Places(k, keys[k]);
    forall x | x in filled ensures x in places {
      assert Attributed(o, x.point, fp);
      assert x == Slot(k, x.copy);
    }
    forall x | x in places ensures x in filled { assert x == Slot(k, x.copy); }
  }

  /** Every key of the script occurs once. */
  ghost predicate SingleKeys(o: InputMap) {
    forall k :: o.witnessScript.Some? && k in o.witnessScript.value.keys ==> o.witnessScript.value.keys[k] == 1
  }

  lemma {:induction false} SingleKeysTally(c: Crypto, unsigned: Psbt, threshold: nat, signers: seq<Fingerprint>,
                                           docs: seq<Psbt>, i: nat)
    requires MultisigSpend(unsigned, threshold) && Accepted(c, unsigned, signers, docs)
    requires i < |unsigned.inputs| && SingleKeys(unsigned.inputs[i])
    requires forall k :: 0 <= k < |docs| ==> |docs[k].inputs| == |unsigned.inputs|
    ensures Tally(unsigned, docs, i) <= |docs|
    decreases |docs|
  {
    if docs != [] {
      var n := |docs| - 1;
      AcceptedPrefix(c, unsigned, signers, docs, n);
      SingleKeysTally(c, unsigned, threshold, signers[..n], docs[..n], i);
      if Filled(unsigned, docs[n], i) != {} {
        SingleFill(c, unsigned, threshold, docs[n], signers[n], i);
      }
    }
  }

  lemma SingleFill(c: Crypto, unsigned: Psbt, threshold: nat, d: Psbt, fp: Fingerprint, i: nat)
    requires MultisigSpend(unsigned, threshold) && Acceptable(c, unsigned, d, fp)
    requires i < |unsigned.inputs| && SingleKeys(unsigned.inputs[i]) && Filled(unsigned, d, i) != {}
    ensures |Filled(unsigned, d, i)| == 1
  {
    AcceptedFills(c, unsigned, threshold, d, fp, i);
    SignerFills(c, unsigned, threshold, d, fp, i);
    assert MultisigInput(unsigned.inputs[i], threshold);
    var x :| x in Filled(unsigned, d, i);
    CopiesAre(unsigned.inputs[i], threshold, x.point, fp);
  }

  /** Where one input's script keys are distinct, fewer than `threshold` signers are
      never a quorum. */
  lemma SingleKeysNeedThreshold(c: Crypto, unsigned: Psbt, threshold: nat, signers: seq<Fingerprint>, docs: seq<Psbt>,
                                i: nat)
    requires MultisigSpend(unsigned, threshold) && Accepted(c, unsigned, signers, docs)
    requires i < |unsigned.inputs| && SingleKeys(unsigned.inputs[i]) && |docs| < threshold
    requires forall k :: 0 <= k < |docs| ==> |docs[k].inputs| == |unsigned.inputs|
    ensures !QuorumAt(unsigned, docs, threshold)
  {
    SingleKeysTally(c, unsigned, threshold, signers, docs, i);
    assert Tally(unsigned, docs, i) < threshold;
  }

  /** Every document is signed in the compressed form at every input. */
  ghost predicate AllCount(unsigned: Psbt, docs: seq<Psbt>)
    requires forall k :: 0 <= k < |docs| ==> |docs[k].inputs| == |unsigned.inputs|
  {
    forall k, i :: 0 <= k < |docs| && 0 <= i < |unsigned.inputs| ==> Filled(unsigned, docs[k], i) != {}
  }

  lemma AllCountPrefix(unsigned: Psbt, docs: seq<Psbt>, n: nat)
    requires n <= |docs| && forall k :: 0 <= k < |docs| ==> |docs[k].inputs| == |unsigned.inputs|
    requires AllCount(unsigned, docs)
    ensures AllCount(unsigned, docs[..n])
  {
    forall k, i | 0 <= k < n && 0 <= i < |unsigned.inputs| ensures Filled(unsigned, docs[..n][k], i) != {} {
      assert Filled(unsigned, docs[k], i) != {};
    }
  }

  /** Some signer's key occurs in the script more than once. */
  ghost predicate SharedAmong(o: InputMap, signers: seq<Fingerprint>) {
    exists k :: 0 <= k < |signers| && Copies(o, signers[k]) >= 2
  }

  /** At every input. */
  ghost predicate SharedEverywhere(unsigned: Psbt, signers: seq<Fingerprint>) {
    forall i :: 0 <= i < |unsigned.inputs| ==> SharedAmong(unsigned.inputs[i], signers)
  }

  lemma SharedAmongSnoc(o: InputMap, signers: seq<Fingerprint>, n: nat)
    requires n + 1 == |signers|
    ensures SharedAmong(o, signers) <==> SharedAmong(o, signers[..n]) || Copies(o, signers[n]) >= 2
  {
    if SharedAmong(o, signers[..n]) {
      var k :| 0 <= k < n && Copies(o, signers[..n][k]) >= 2;
      assert Copies(o, signers[k]) >= 2;
    }
    if SharedAmong(o, signers) && Copies(o, signers[n]) < 2 {
      var k :| 0 <= k < |signers| && Copies(o, signers[k]) >= 2;
      assert Copies(o, signers[..n][k]) >= 2;
    }
  }

  /** One more signer in the compressed form fills a place, and more exactly when
      their key occurs more than once. */
  lemma LastFills(c: Crypto, unsigned: Psbt, threshold: nat, signers: seq<Fingerprint>, docs: seq<Psbt>, i: nat)
    requires MultisigSpend(unsigned, threshold) && Accepted(c, unsigned, signers, docs) && i < |unsigned.inputs|
    requires forall k :: 0 <= k < |docs| ==> |docs[k].inputs| == |unsigned.inputs|
    requires AllCount(unsigned, docs) && docs != []
    ensures var n := |docs| - 1;
            && Tally(unsigned, docs, i) > Tally(unsigned, docs[..n], i)
            && (Tally(unsigned, docs, i) > Tally(unsigned, docs[..n], i) + 1
                <==> Copies(unsigned.inputs[i], signers[n]) >= 2)
  {
    var n := |docs| - 1;
    AcceptedFills(c, unsigned, threshold, docs[n], signers[n], i);
  }

  /** Compressed-form signers fill a place each, and more exactly when one of
      their keys occurs more than once. */
  lemma {:induction false} FullTally(c: Crypto, unsigned: Psbt, threshold: nat, signers: seq<Fingerprint>,
                                     docs: seq<Psbt>, i: nat)
    requires MultisigSpend(unsigned, threshold) && Accepted(c, unsigned, signers, docs) && i < |unsigned.inputs|
    requires forall k :: 0 <= k < |docs| ==> |docs[k].inputs| == |unsigned.inputs|
    requires AllCount(unsigned, docs)
    ensures Tally(unsigned, docs, i) >= |docs|
    ensures Tally(unsigned, docs, i) > |docs| <==> SharedAmong(unsigned.inputs[i], signers)
    decreases |docs|
  {
    hide AllCount, MultisigSpend, Copies;
    if docs != [] {
      var n := |docs| - 1;
      AcceptedPrefix(c, unsigned, signers, docs, n);
      AllCountPrefix(unsigned, docs, n);
      FullTally(c, unsigned, threshold, signers[..n], docs[..n], i);
      LastFills(c, unsigned, threshold, signers, docs, i);
      SharedAmongSnoc(unsigned.inputs[i], signers, n);
    }
  }

  /** With compressed-form signatures `threshold` signers are always a quorum; one
      signer fewer is one exactly when, at every input, the key of some of them
      occurs in the script more than once. */
  lemma CompressedQuorum(c: Crypto, unsigned: Psbt, threshold: nat, signers: seq<Fingerprint>, docs: seq<Psbt>)
    requires MultisigSpend(unsigned, threshold) && Accepted(c, unsigned, signers, docs)
    requires 0 < threshold <= |docs| && forall k :: 0 <= k < |docs| ==> |docs[k].inputs| == |unsigned.inputs|
    requires AllCount(unsigned, docs)
    ensures QuorumAt(unsigned, docs[..threshold], threshold)
    ensures QuorumAt(unsigned, docs[..threshold - 1], threshold) <==>
            SharedEverywhere(unsigned, signers[..threshold - 1])
  {
    var t := threshold;
    forall n | n == t || n == t - 1
      ensures Accepted(c, unsigned, signers[..n], docs[..n]) && AllCount(unsigned, docs[..n])
    {
      AcceptedPrefix(c, unsigned, signers, docs, n);
      AllCountPrefix(unsigned, docs, n);
    }
    forall i | 0 <= i < |unsigned.inputs|
      ensures Tally(unsigned, docs[..t], i) >= t
      ensures Tally(unsigned, docs[..t - 1], i) >= t <==> SharedAmong(unsigned.inputs[i], signers[..t - 1])
    {
      FullTally(c, unsigned, t, signers[..t], docs[..t], i);
      FullTally(c, unsigned, t, signers[..t - 1], docs[..t - 1], i);
    }
  }

  /** With compressed-form signatures a met threshold always completes the search,
      on the fewest first signers that fill the script: the first `threshold`,
      unless the key of one of the first `threshold - 1` is in the script twice. */
  lemma ThresholdCompletes(c: Crypto, blobs: Blobs, unsigned: Psbt, threshold: nat,
                           records: seq<SignatureRecord>, docs: seq<Psbt>)
      returns (n: nat)
    requires 0 < threshold <= |records| && |unsigned.inputs| > 0
    requires MultisigSpend(unsigned, threshold) && HonestRecords(c, blobs, unsigned, records, docs)
    requires forall j :: 0 <= j < |docs| ==> |docs[j].inputs| == |unsigned.inputs|
    requires AllCount(unsigned, docs)
    ensures n <= threshold
    ensures SearchPrefix(c, blobs, unsigned, unsigned, records, [])
            == Complete(CombineAll(unsigned, docs[..n]), Signers(records)[..n])
    ensures n < threshold <==> SharedEverywhere(unsigned, Signers(records)[..threshold - 1])
  {
    CompressedQuorum(c, unsigned, threshold, Signers(records), docs);
    n := LeastQuorumExists(unsigned, docs, threshold, threshold);
    LeastQuorumReachesThreshold(unsigned, docs, threshold, n);
    SearchFindsLeastQuorum(c, blobs, unsigned, threshold, records, docs, n);
  }

  // --- what the session makes of a completed search ---

  lemma SignersAreSigned(sigs: seq<SignatureRecord>, n: nat)
    requires n <= |sigs|
    ensures forall fp :: fp in Signers(sigs)[..n] ==> HasSigned(sigs, fp)
  {
    forall fp | fp in Signers(sigs)[..n] ensures HasSigned(sigs, fp) {
      var i :| 0 <= i < n && Signers(sigs)[..n][i] == fp;
      assert sigs[i].fingerprint == fp;
    }
  }

  lemma DistinctTake<T>(s: seq<T>, n: nat)
    requires Distinct(s) && n <= |s|
    ensures Distinct(s[..n])
  {
  }

  /** A collecting session accepts the first `n` recorded signers if they are as
      many as its threshold ... */
  lemma FirstSignersFinalize(s: Session, txid: Txid, hash: PsbtHash, n: nat)
    requires Hydrated(s) && StatusOf(s.events) == Collecting && s.finalization.None?
    requires s.policy.threshold <= n <= |s.signatures|
    ensures var first := Signers(s.signatures)[..n];
            var (t, outcome) := Finalize(s, txid, hash, first);
            && outcome == Executed
            && t.finalization == Some(FinalizationRecord(txid, hash, Sort(first, FingerprintLe)))
            && StatusOf(t.events) == FinalizedStatus
  {
    var first := Signers(s.signatures)[..n];
    FinalizedIffRecorded(s.events);
    SignersAreSigned(s.signatures, n);
    DistinctTake(Signers(s.signatures), n);
    FinalizeExecutesIff(s, txid, hash, first);
    FinalizeRecords(s, txid, hash, first);
  }

  /** ... and refuses fewer. */
  lemma FewerSignersRefused(s: Session, txid: Txid, hash: PsbtHash, n: nat)
    requires Hydrated(s) && StatusOf(s.events) == Collecting && s.finalization.None?
    requires n <= |s.signatures| && n < s.policy.threshold
    ensures Finalize(s, txid, hash, Signers(s.signatures)[..n]) == (s, Failed(ThresholdNotMet(n, s.policy.threshold)))
  {
    FinalizedIffRecorded(s.events);
  }

  /** Extraction succeeds on whatever finalizes. */
  ghost predicate ExtractionWorks(c: Crypto) {
    forall psbt :: Finalizable(psbt) ==> c.extract(psbt).Some?
  }

  /** The whole job on a session that met its threshold with honest,
      compressed-form documents: it records the first `threshold` signers, sorted,
      and the session becomes final, unless the key of one of the first
      `threshold - 1` is in every script twice; then the session refuses the
      signers the job found. */
  lemma MetThresholdEndsFinalIff(c: Crypto, blobs: Blobs, s: Session, unsigned: Psbt, docs: seq<Psbt>)
      returns (n: nat)
    requires Hydrated(s) && StatusOf(s.events) == Collecting && ThresholdMet(s) && s.finalization.None?
    requires s.unsignedHash.Some? && LoadPsbt(blobs, s.unsignedHash.value) == Success(unsigned)
    requires |unsigned.inputs| > 0 && MultisigSpend(unsigned, s.policy.threshold)
    requires HonestRecords(c, blobs, unsigned, s.signatures, docs) && ExtractionWorks(c)
    requires forall j :: 0 <= j < |docs| ==> |docs[j].inputs| == |unsigned.inputs|
    requires AllCount(unsigned, docs)
    ensures n <= s.policy.threshold
    ensures var plan := PlanFor(c, blobs, s);
            && plan.Record? && plan.used == Signers(s.signatures)[..n]
            && c.extract(CombineAll(unsigned, docs[..n])) == Some(plan.tx) && plan.txid == c.txid(plan.tx)
            && (var (t, outcome) := Finalize(s, plan.txid, Sha256(TxBlob(plan.tx)), plan.used);
                && (outcome == Executed <==>
                    !SharedEverywhere(unsigned, Signers(s.signatures)[..s.policy.threshold - 1]))
                && (outcome == Executed ==>
                      n == s.policy.threshold && StatusOf(t.events) == FinalizedStatus
                      && t.finalization == Some(FinalizationRecord(plan.txid, Sha256(TxBlob(plan.tx)),
                                                                   Sort(plan.used, FingerprintLe))))
                && (outcome != Executed ==>
                      t == s && outcome == Failed(ThresholdNotMet(n, s.policy.threshold))))
  {
    n := ThresholdCompletes(c, blobs, unsigned, s.policy.threshold, s.signatures, docs);
    UnsignedIsSafe(c, unsigned);
    SearchIsSafe(c, blobs, unsigned, unsigned, s.signatures, []);
    var plan := PlanFor(c, blobs, s);
    if n < s.policy.threshold {
      FewerSignersRefused(s, plan.txid, Sha256(TxBlob(plan.tx)), n);
    } else {
      FirstSignersFinalize(s, plan.txid, Sha256(TxBlob(plan.tx)), n);
    }
  }

  lemma UnsignedIsSafe(c: Crypto, unsigned: Psbt)
    ensures SafeDocument(c, unsigned, unsigned)
  {
  }
}
