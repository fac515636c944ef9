/** Re-verification and combination of the stored, per-signer documents. */
module Combination {
  import opened Foundation
  import opened Documents
  import opened Submission

  // --- re-verification ---

  ghost predicate InputVerifies(c: Crypto, original: Psbt, i: nat, m: InputMap, keys: set<PublicKey>)
    requires i < |original.inputs| && keys <= m.partialSigs.Keys
  {
    forall pk :: pk in keys && pk !in original.inputs[i].partialSigs ==> Genuine(c, original, i, pk, m.partialSigs[pk])
  }

  /** What the finalization job demands of a stored document before using it. */
  ghost predicate VerifiesAgainst(c: Crypto, original: Psbt, m: Psbt) {
    && m.unsignedTx == original.unsignedTx
    && |m.inputs| == |original.inputs|
    && forall i :: 0 <= i < |original.inputs| ==>
         InputVerifies(c, original, i, m.inputs[i], m.inputs[i].partialSigs.Keys)
  }

  /** A signature the document adds at input `i` fails the check `e` names. */
  ghost predicate AddedDefect(c: Crypto, original: Psbt, i: nat, m: InputMap, e: ValidationError)
    requires i < |original.inputs|
  {
    match e
    case NonSigHashAllSighash(k) =>
      k == i && exists pk :: pk in Added(original.inputs[i], m) && m.partialSigs[pk].sighashType != SIGHASH_ALL
    case SighashComputation(k) => k == i && Added(original.inputs[i], m) != {} && c.sighash(original, i).None?
    case InvalidPartialSignature(k) =>
      k == i && c.sighash(original, i).Some?
      && exists pk :: pk in Added(original.inputs[i], m)
                      && !c.verifies(c.sighash(original, i).value, m.partialSigs[pk].bytes, pk.inner)
    case _ => false
  }

  /** What a reported defect says, and that no earlier input has one. */
  ghost predicate BlobDefect(c: Crypto, original: Psbt, m: Psbt, e: ValidationError) {
    if e.UnsignedTxModified? then m.unsignedTx != original.unsignedTx
    else if e.InputOutputCountMismatch? then
      m.unsignedTx == original.unsignedTx && |m.inputs| != |original.inputs|
    else
      && m.unsignedTx == original.unsignedTx && |m.inputs| == |original.inputs|
      && (e.NonSigHashAllSighash? || e.SighashComputation? || e.InvalidPartialSignature?)
      && e.index < |original.inputs| && AddedDefect(c, original, e.index, m.inputs[e.index], e)
      && forall j :: 0 <= j < e.index ==> InputVerifies(c, original, j, m.inputs[j], m.inputs[j].partialSigs.Keys)
  }

  lemma DefectFound(c: Crypto, original: Psbt, i: nat, m: InputMap, pk: PublicKey, e: ValidationError)
    requires i < |original.inputs| && pk in Added(original.inputs[i], m)
    requires
      || (e == NonSigHashAllSighash(i) && m.partialSigs[pk].sighashType != SIGHASH_ALL)
      || (e == SighashComputation(i) && c.sighash(original, i).None?)
      || (e == InvalidPartialSignature(i) && c.sighash(original, i).Some?
          && !c.verifies(c.sighash(original, i).value, m.partialSigs[pk].bytes, pk.inner))
    ensures AddedDefect(c, original, i, m, e) && !InputVerifies(c, original, i, m, m.partialSigs.Keys)
  {
    assert !Genuine(c, original, i, pk, m.partialSigs[pk]);
  }

  method VerifyMergedBlob(c: Crypto, original: Psbt, m: Psbt) returns (e: Option<ValidationError>)
    ensures e.None? <==> VerifiesAgainst(c, original, m)
    ensures e.Some? ==> BlobDefect(c, original, m, e.value)
  {
    if m.unsignedTx != original.unsignedTx { return Some(UnsignedTxModified); }
    if |m.inputs| != |original.inputs| { return Some(InputOutputCountMismatch); }
    var i := 0;
    while i < |original.inputs|
      invariant 0 <= i <= |original.inputs|
      invariant forall j :: 0 <= j < i ==> InputVerifies(c, original, j, m.inputs[j], m.inputs[j].partialSigs.Keys)
    {
      var sigs := m.inputs[i].partialSigs;
      var todo := sigs.Keys;
      while todo != {}
        invariant todo <= sigs.Keys
        invariant InputVerifies(c, original, i, m.inputs[i], sigs.Keys - todo)
        decreases |todo|
      {
        var pk :| pk in todo;
        todo := todo - {pk};
        if pk !in original.inputs[i].partialSigs {
          e := VerifyPartialSig(c, original, i, pk, sigs[pk]);
          if e.Some? {
            DefectFound(c, original, i, m.inputs[i], pk, e.value);
            return;
          }
        }
      }
      assert sigs.Keys - todo == sigs.Keys;
      i := i + 1;
    }
    e := None;
  }

  // --- combination: entries already present win ---

  function CombineInput(m: InputMap, s: InputMap): InputMap {
    m.(partialSigs := s.partialSigs + m.partialSigs)
  }

  function CombineWith(m: Psbt, s: Psbt): (r: Psbt)
    requires |m.inputs| == |s.inputs|
    ensures |r.inputs| == |m.inputs|
  {
    m.(inputs := seq(|m.inputs|, i requires 0 <= i < |m.inputs| => CombineInput(m.inputs[i], s.inputs[i])))
  }

  /** `entry(pk).or_insert(sig)` for every entry of `sigs`, in any order. */
  method InsertMissing(held: PartialSigs, sigs: PartialSigs) returns (entries: PartialSigs)
    ensures entries == sigs + held
  {
    entries := held;
    var todo := sigs.Keys;
    while todo != {}
      invariant todo <= sigs.Keys
      invariant entries == (map pk | pk in sigs && pk !in todo :: sigs[pk]) + held
      decreases |todo|
    {
      var pk :| pk in todo;
      todo := todo - {pk};
      if pk !in entries { entries := entries[pk := sigs[pk]]; }
    }
    assert (map pk | pk in sigs && pk !in todo :: sigs[pk]) == sigs;
  }

  method CombineInto(m: Psbt, s: Psbt) returns (r: Psbt)
    requires |m.inputs| == |s.inputs|
    ensures r == CombineWith(m, s)
  {
    var inputs := m.inputs;
    var i := 0;
    while i < |s.inputs|
      invariant 0 <= i <= |s.inputs| == |inputs|
      invariant forall j :: 0 <= j < i ==> inputs[j] == CombineInput(m.inputs[j], s.inputs[j])
      invariant forall j :: i <= j < |m.inputs| ==> inputs[j] == m.inputs[j]
    {
      var entries := InsertMissing(inputs[i].partialSigs, s.inputs[i].partialSigs);
      inputs := inputs[i := inputs[i].(partialSigs := entries)];
      i := i + 1;
    }
    assert inputs == CombineWith(m, s).inputs;
    r := m.(inputs := inputs);
  }

  function CombineAll(original: Psbt, docs: seq<Psbt>): (r: Psbt)
    requires forall k :: 0 <= k < |docs| ==> |docs[k].inputs| == |original.inputs|
    ensures |r.inputs| == |original.inputs|
  {
    if docs == [] then original else CombineWith(CombineAll(original, docs[..|docs| - 1]), docs[|docs| - 1])
  }

  // --- safety for whatever the store returns ---

  /** The original, its own signatures untouched, plus only genuine ones. */
  ghost predicate SafeDocument(c: Crypto, original: Psbt, m: Psbt) {
    && SameFrame(original, m)
    && forall i :: 0 <= i < |original.inputs| ==>
         OnlyAddsSigs(original.inputs[i], m.inputs[i])
         && InputVerifies(c, original, i, m.inputs[i], m.inputs[i].partialSigs.Keys)
  }

  lemma CombineKeepsSafe(c: Crypto, original: Psbt, m: Psbt, s: Psbt)
    requires SafeDocument(c, original, m) && VerifiesAgainst(c, original, s)
    ensures SafeDocument(c, original, CombineWith(m, s))
  {
    var r := CombineWith(m, s);
    forall i | 0 <= i < |original.inputs|
      ensures OnlyAddsSigs(original.inputs[i], r.inputs[i])
              && InputVerifies(c, original, i, r.inputs[i], r.inputs[i].partialSigs.Keys)
    {
      assert OnlyAddsSigs(original.inputs[i], m.inputs[i]);
      assert InputVerifies(c, original, i, m.inputs[i], m.inputs[i].partialSigs.Keys);
      assert InputVerifies(c, original, i, s.inputs[i], s.inputs[i].partialSigs.Keys);
    }
  }

  /** Whatever documents the store returned, as long as each passes
      re-verification, what gets finalized is safe. */
  lemma {:induction false} CombineAllIsSafe(c: Crypto, original: Psbt, docs: seq<Psbt>)
    requires forall k :: 0 <= k < |docs| ==> |docs[k].inputs| == |original.inputs|
    requires forall k :: 0 <= k < |docs| ==> VerifiesAgainst(c, original, docs[k])
    ensures SafeDocument(c, original, CombineAll(original, docs))
  {
    if docs != [] {
      CombineAllIsSafe(c, original, docs[..|docs| - 1]);
      CombineKeepsSafe(c, original, CombineAll(original, docs[..|docs| - 1]), docs[|docs| - 1]);
    }
  }

  lemma SafeVerifies(c: Crypto, original: Psbt, m: Psbt)
    requires SafeDocument(c, original, m)
    ensures VerifiesAgainst(c, original, m)
  {
  }

  lemma AcceptedIsSafe(c: Crypto, original: Psbt, signed: Psbt, fp: Fingerprint)
    requires Acceptable(c, original, signed, fp)
    ensures SafeDocument(c, original, signed) && VerifiesAgainst(c, original, signed)
  {
    forall i | 0 <= i < |original.inputs|
      ensures OnlyAddsSigs(original.inputs[i], signed.inputs[i])
              && InputVerifies(c, original, i, signed.inputs[i], signed.inputs[i].partialSigs.Keys)
    {
      assert InputSound(c, original, i, signed.inputs[i], fp);
    }
  }

  // --- several signers ---

  /** One accepted document per signer, no signer twice. */
  ghost predicate Accepted(c: Crypto, original: Psbt, signers: seq<Fingerprint>, docs: seq<Psbt>) {
    && |signers| == |docs|
    && Distinct(signers)
    && forall k :: 0 <= k < |docs| ==> Acceptable(c, original, docs[k], signers[k])
  }

  /** Re-verification agrees with upload: the documents of any number of
      accepted signers, and their combination, all pass. */
  lemma ReverificationAgrees(c: Crypto, original: Psbt, signers: seq<Fingerprint>, docs: seq<Psbt>)
    requires Accepted(c, original, signers, docs)
    ensures forall k :: 0 <= k < |docs| ==> VerifiesAgainst(c, original, docs[k])
    ensures VerifiesAgainst(c, original, CombineAll(original, docs))
  {
    forall k | 0 <= k < |docs| ensures VerifiesAgainst(c, original, docs[k]) {
      AcceptedIsSafe(c, original, docs[k], signers[k]);
    }
    CombineAllIsSafe(c, original, docs);
    SafeVerifies(c, original, CombineAll(original, docs));
  }

  /** Different signers never add a signature under the same key. */
  lemma SignersDisjoint(c: Crypto, original: Psbt, a: Psbt, fa: Fingerprint, b: Psbt, fb: Fingerprint, i: nat)
    requires Acceptable(c, original, a, fa) && Acceptable(c, original, b, fb) && fa != fb
    requires i < |original.inputs|
    ensures Added(original.inputs[i], a.inputs[i]) !! Added(original.inputs[i], b.inputs[i])
  {
    assert InputSound(c, original, i, a.inputs[i], fa) && InputSound(c, original, i, b.inputs[i], fb);
    forall pk | pk in Added(original.inputs[i], a.inputs[i]) ensures pk !in Added(original.inputs[i], b.inputs[i]) {
      assert BoundTo(original.inputs[i], pk, fa);
      assert pk in Added(original.inputs[i], b.inputs[i]) ==> BoundTo(original.inputs[i], pk, fb);
    }
  }

  ghost predicate SomeDocHas(docs: seq<Psbt>, i: nat, pk: PublicKey)
    requires forall k :: 0 <= k < |docs| ==> i < |docs[k].inputs|
  {
    exists k :: 0 <= k < |docs| && pk in docs[k].inputs[i].partialSigs
  }

  lemma {:induction false} CombinedKeys(original: Psbt, docs: seq<Psbt>, i: nat, pk: PublicKey)
    requires i < |original.inputs|
    requires forall k :: 0 <= k < |docs| ==> |docs[k].inputs| == |original.inputs|
    ensures pk in CombineAll(original, docs).inputs[i].partialSigs
            <==> pk in original.inputs[i].partialSigs || SomeDocHas(docs, i, pk)
  {
    if docs != [] {
      var n := |docs| - 1;
      CombinedKeys(original, docs[..n], i, pk);
      if SomeDocHas(docs[..n], i, pk) {
        var k :| 0 <= k < n && pk in docs[..n][k].inputs[i].partialSigs;
        assert pk in docs[k].inputs[i].partialSigs;
      }
      if SomeDocHas(docs, i, pk) {
        var k :| 0 <= k < |docs| && pk in docs[k].inputs[i].partialSigs;
        if k < n { assert pk in docs[..n][k].inputs[i].partialSigs; }
      }
    }
  }

  lemma AcceptedPrefix(c: Crypto, original: Psbt, signers: seq<Fingerprint>, docs: seq<Psbt>, n: nat)
    requires Accepted(c, original, signers, docs) && n <= |docs|
    ensures Accepted(c, original, signers[..n], docs[..n])
  {
  }

  /** No signature is lost: every accepted document's entry is in the
      combination, with the same value. */
  lemma {:induction false} NothingDiscarded(c: Crypto, original: Psbt, signers: seq<Fingerprint>, docs: seq<Psbt>,
                                            k: nat, i: nat, pk: PublicKey)
    requires Accepted(c, original, signers, docs) && k < |docs| && i < |original.inputs|
    requires pk in docs[k].inputs[i].partialSigs
    ensures pk in CombineAll(original, docs).inputs[i].partialSigs
    ensures CombineAll(original, docs).inputs[i].partialSigs[pk] == docs[k].inputs[i].partialSigs[pk]
    decreases |docs|
  {
    var n := |docs| - 1;
    AcceptedPrefix(c, original, signers, docs, n);
    var before := CombineAll(original, docs[..n]);
    if k < n {
      NothingDiscarded(c, original, signers[..n], docs[..n], k, i, pk);
    } else if pk in original.inputs[i].partialSigs {
      ReverificationAgrees(c, original, signers[..n], docs[..n]);
      CombineAllIsSafe(c, original, docs[..n]);
      assert OnlyAddsSigs(original.inputs[i], before.inputs[i]);
      assert InputSound(c, original, i, docs[n].inputs[i], signers[n]);
    } else {
      CombinedKeys(original, docs[..n], i, pk);
      forall j | 0 <= j < n ensures pk !in docs[j].inputs[i].partialSigs {
        SignersDisjoint(c, original, docs[j], signers[j], docs[n], signers[n], i);
        assert signers[j] != signers[n];
      }
    }
  }

  /** Signers commute: any two orders of the same accepted documents combine to
      the same document. */
  lemma SignersCommute(c: Crypto, original: Psbt,
                       signers: seq<Fingerprint>, docs: seq<Psbt>,
                       signers': seq<Fingerprint>, docs': seq<Psbt>)
    requires Accepted(c, original, signers, docs) && Accepted(c, original, signers', docs')
    requires forall d :: d in docs <==> d in docs'
    ensures CombineAll(original, docs) == CombineAll(original, docs')
  {
    var a, b := CombineAll(original, docs), CombineAll(original, docs');
    ReverificationAgrees(c, original, signers, docs);
    ReverificationAgrees(c, original, signers', docs');
    CombineAllIsSafe(c, original, docs);
    CombineAllIsSafe(c, original, docs');
    forall i | 0 <= i < |original.inputs| ensures a.inputs[i] == b.inputs[i] {
      forall pk | pk in a.inputs[i].partialSigs
        ensures pk in b.inputs[i].partialSigs && a.inputs[i].partialSigs[pk] == b.inputs[i].partialSigs[pk]
      {
        SameEntry(c, original, signers, docs, signers', docs', i, pk);
      }
      forall pk | pk in b.inputs[i].partialSigs ensures pk in a.inputs[i].partialSigs {
        SameEntry(c, original, signers', docs', signers, docs, i, pk);
      }
      assert a.inputs[i].partialSigs == b.inputs[i].partialSigs;
    }
    assert a.inputs == b.inputs;
  }

  lemma SameEntry(c: Crypto, original: Psbt,
                  signers: seq<Fingerprint>, docs: seq<Psbt>,
                  signers': seq<Fingerprint>, docs': seq<Psbt>, i: nat, pk: PublicKey)
    requires Accepted(c, original, signers, docs) && Accepted(c, original, signers', docs')
    requires forall d :: d in docs <==> d in docs'
    requires i < |original.inputs| && pk in CombineAll(original, docs).inputs[i].partialSigs
    ensures pk in CombineAll(original, docs').inputs[i].partialSigs
    ensures CombineAll(original, docs).inputs[i].partialSigs[pk]
            == CombineAll(original, docs').inputs[i].partialSigs[pk]
  {
    CombinedKeys(original, docs, i, pk);
    CombinedKeys(original, docs', i, pk);
    if pk in original.inputs[i].partialSigs {
      ReverificationAgrees(c, original, signers, docs);
      ReverificationAgrees(c, original, signers', docs');
      CombineAllIsSafe(c, original, docs);
      CombineAllIsSafe(c, original, docs');
      assert OnlyAddsSigs(original.inputs[i], CombineAll(original, docs).inputs[i]);
      assert OnlyAddsSigs(original.inputs[i], CombineAll(original, docs').inputs[i]);
    } else {
      var k :| 0 <= k < |docs| && pk in docs[k].inputs[i].partialSigs;
      assert docs[k] in docs';
      var k' :| 0 <= k' < |docs'| && docs'[k'] == docs[k];
      NothingDiscarded(c, original, signers, docs, k, i, pk);
      NothingDiscarded(c, original, signers', docs', k', i, pk);
    }
  }
}
