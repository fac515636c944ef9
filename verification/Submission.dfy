/** Acceptance of signer-submitted PSBTs, the rebuild of the stored document,
    and the combination of several signers' documents. */
module Submission {
  import opened Foundation
  import opened Documents

  datatype ValidationError =
    | UnsignedTxModified
    | InputOutputCountMismatch
    | GlobalFieldModified
    | OutputFieldModified(index: nat)
    | PartialSignatureRemoved(index: nat)
    | InputFieldModified(index: nat)
    | SignatureNotBoundToSigner(index: nat, pubkey: PublicKey, expected: Fingerprint)
    | NonSigHashAllSighash(index: nat)
    | SighashComputation(index: nat)
    | InvalidPartialSignature(index: nat)
    | NoNewSignatures
    | IncompleteSubmission(index: nat)

  datatype Extracted = Extracted(index: nat, pubkey: PublicKey, signature: Signature)

  // --- what acceptance means ---

  function Added(o: InputMap, s: InputMap): set<PublicKey> {
    s.partialSigs.Keys - o.partialSigs.Keys
  }

  /** SIGHASH_ALL, and valid for the sighash of the platform's own document. */
  predicate Genuine(c: Crypto, original: Psbt, i: nat, pk: PublicKey, sig: Signature) {
    && sig.sighashType == SIGHASH_ALL
    && c.sighash(original, i).Some?
    && c.verifies(c.sighash(original, i).value, sig.bytes, pk.inner)
  }

  /** The platform's document attributes the key to `fp`. */
  predicate BoundTo(o: InputMap, pk: PublicKey, fp: Fingerprint) {
    pk.inner in o.derivation && o.derivation[pk.inner].fingerprint == fp
  }

  ghost predicate SigsKept(o: InputMap, s: InputMap) {
    forall pk :: pk in o.partialSigs ==> pk in s.partialSigs && s.partialSigs[pk] == o.partialSigs[pk]
  }

  /** `s` is `o` with signatures added and nothing else touched. */
  ghost predicate OnlyAddsSigs(o: InputMap, s: InputMap) {
    s == o.(partialSigs := s.partialSigs) && SigsKept(o, s)
  }

  ghost predicate AddedByKeys(c: Crypto, original: Psbt, i: nat, s: InputMap, fp: Fingerprint, keys: set<PublicKey>)
    requires i < |original.inputs| && keys <= s.partialSigs.Keys
  {
    forall pk :: pk in keys ==> BoundTo(original.inputs[i], pk, fp) && Genuine(c, original, i, pk, s.partialSigs[pk])
  }

  ghost predicate InputSound(c: Crypto, original: Psbt, i: nat, s: InputMap, fp: Fingerprint)
    requires i < |original.inputs|
  {
    OnlyAddsSigs(original.inputs[i], s) && AddedByKeys(c, original, i, s, fp, Added(original.inputs[i], s))
  }

  ghost predicate SameFrame(original: Psbt, signed: Psbt) {
    && signed.unsignedTx == original.unsignedTx
    && signed.globals == original.globals
    && signed.outputs == original.outputs
    && |signed.inputs| == |original.inputs|
  }

  /** The submission is the original plus, at every input, at least one
      genuine signature by the signer `fp`, and nothing else. */
  ghost predicate Acceptable(c: Crypto, original: Psbt, signed: Psbt, fp: Fingerprint) {
    && |original.inputs| > 0
    && SameFrame(original, signed)
    && forall i :: 0 <= i < |original.inputs| ==>
         InputSound(c, original, i, signed.inputs[i], fp) && Added(original.inputs[i], signed.inputs[i]) != {}
  }

  /** The input is the platform's with signatures added, at least one, each under a
      key the platform's document attributes to the signer and valid there. */
  ghost predicate Completes(c: Crypto, original: Psbt, i: nat, o: InputMap, s: InputMap, fp: Fingerprint) {
    && s == o.(partialSigs := s.partialSigs)
    && (forall pk :: pk in o.partialSigs ==> pk in s.partialSigs && s.partialSigs[pk] == o.partialSigs[pk])
    && (exists pk :: pk in s.partialSigs && pk !in o.partialSigs)
    && forall pk :: pk in s.partialSigs && pk !in o.partialSigs ==>
         && pk.inner in o.derivation && o.derivation[pk.inner].fingerprint == fp
         && s.partialSigs[pk].sighashType == 1 && c.sighash(original, i).Some?
         && c.verifies(c.sighash(original, i).value, s.partialSigs[pk].bytes, pk.inner)
  }

  lemma InputMeans(c: Crypto, original: Psbt, i: nat, s: InputMap, fp: Fingerprint)
    requires i < |original.inputs|
    ensures InputSound(c, original, i, s, fp) && Added(original.inputs[i], s) != {}
            <==> Completes(c, original, i, original.inputs[i], s, fp)
  {
    var o := original.inputs[i];
    if Added(o, s) != {} {
      var pk :| pk in Added(o, s);
      assert pk in s.partialSigs && pk !in o.partialSigs;
    }
    forall pk | pk in s.partialSigs && pk !in o.partialSigs ensures pk in Added(o, s) {}
  }

  /** Acceptance, spelled out: the signed document differs from the platform's in
      its inputs alone, and each of these the signer completed. */
  lemma AcceptableMeans(c: Crypto, original: Psbt, signed: Psbt, fp: Fingerprint)
    ensures Acceptable(c, original, signed, fp) <==>
            && signed == original.(inputs := signed.inputs) && |signed.inputs| == |original.inputs| > 0
            && forall i :: 0 <= i < |original.inputs| ==>
                 Completes(c, original, i, original.inputs[i], signed.inputs[i], fp)
  {
    forall i | 0 <= i < |original.inputs| == |signed.inputs|
      ensures InputSound(c, original, i, signed.inputs[i], fp) && Added(original.inputs[i], signed.inputs[i]) != {}
              <==> Completes(c, original, i, original.inputs[i], signed.inputs[i], fp)
    {
      InputMeans(c, original, i, signed.inputs[i], fp);
    }
    hide InputSound, Completes;
  }

  /** What a reported defect says, and that no earlier input has one. */
  ghost predicate Truthful(c: Crypto, original: Psbt, signed: Psbt, fp: Fingerprint, e: ValidationError) {
    match e
    case UnsignedTxModified => signed.unsignedTx != original.unsignedTx
    case InputOutputCountMismatch =>
      |signed.inputs| != |original.inputs| || |signed.outputs| != |original.outputs|
    case GlobalFieldModified => signed.globals != original.globals
    case OutputFieldModified(i) =>
      |signed.outputs| == |original.outputs| && i < |original.outputs|
      && signed.outputs[i] != original.outputs[i] && signed.outputs[..i] == original.outputs[..i]
    case NoNewSignatures =>
      SameFrame(original, signed)
      && forall i :: 0 <= i < |original.inputs| ==> Added(original.inputs[i], signed.inputs[i]) == {}
    case IncompleteSubmission(i) =>
      SameFrame(original, signed) && i < |original.inputs| && Added(original.inputs[i], signed.inputs[i]) == {}
      && forall j :: 0 <= j < i ==> Added(original.inputs[j], signed.inputs[j]) != {}
    case _ =>
      SameFrame(original, signed) && e.index < |original.inputs|
      && InputDefect(c, original, e.index, signed.inputs[e.index], fp, e)
      && forall j :: 0 <= j < e.index ==> InputSound(c, original, j, signed.inputs[j], fp)
  }

  ghost predicate InputDefect(c: Crypto, original: Psbt, i: nat, s: InputMap, fp: Fingerprint, e: ValidationError)
    requires i < |original.inputs|
  {
    var o := original.inputs[i];
    match e
    case PartialSignatureRemoved(k) => k == i && !SigsKept(o, s)
    case InputFieldModified(k) => k == i && s != o.(partialSigs := s.partialSigs)
    case SignatureNotBoundToSigner(k, pk, expected) =>
      k == i && expected == fp && pk in Added(o, s) && !BoundTo(o, pk, fp)
    case NonSigHashAllSighash(k) =>
      k == i && exists pk :: pk in Added(o, s) && s.partialSigs[pk].sighashType != SIGHASH_ALL
    case SighashComputation(k) => k == i && Added(o, s) != {} && c.sighash(original, i).None?
    case InvalidPartialSignature(k) =>
      k == i && c.sighash(original, i).Some?
      && exists pk :: pk in Added(o, s)
                      && !c.verifies(c.sighash(original, i).value, s.partialSigs[pk].bytes, pk.inner)
    case _ => false
  }

  // --- validation ---

  method VerifyPartialSig(c: Crypto, original: Psbt, i: nat, pk: PublicKey, sig: Signature)
      returns (e: Option<ValidationError>)
    ensures e.None? <==> Genuine(c, original, i, pk, sig)
    ensures e.Some? ==>
              || (e.value == NonSigHashAllSighash(i) && sig.sighashType != SIGHASH_ALL)
              || (e.value == SighashComputation(i) && c.sighash(original, i).None?)
              || (e.value == InvalidPartialSignature(i) && c.sighash(original, i).Some?
                  && !c.verifies(c.sighash(original, i).value, sig.bytes, pk.inner))
  {
    if sig.sighashType != SIGHASH_ALL { return Some(NonSigHashAllSighash(i)); }
    var message := c.sighash(original, i);
    if message.None? { return Some(SighashComputation(i)); }
    if !c.verifies(message.value, sig.bytes, pk.inner) { return Some(InvalidPartialSignature(i)); }
    e := None;
  }

  /** The loop over the original's signatures: each must survive unchanged. */
  method CheckSigsKept(o: InputMap, s: InputMap) returns (kept: bool)
    ensures kept <==> SigsKept(o, s)
  {
    var todo := o.partialSigs.Keys;
    while todo != {}
      invariant todo <= o.partialSigs.Keys
      invariant forall pk :: pk in o.partialSigs && pk !in todo ==>
                  pk in s.partialSigs && s.partialSigs[pk] == o.partialSigs[pk]
      decreases |todo|
    {
      var pk :| pk in todo;
      todo := todo - {pk};
      if pk !in s.partialSigs || s.partialSigs[pk] != o.partialSigs[pk] { return false; }
    }
    kept := true;
  }

  /** `out` lists the keys of `done` once each, with their signatures. */
  ghost predicate Lists(out: seq<Extracted>, i: nat, s: InputMap, done: set<PublicKey>)
  {
    && (forall k :: 0 <= k < |out| ==>
          out[k].index == i && out[k].pubkey in done && out[k].pubkey in s.partialSigs
          && out[k].signature == s.partialSigs[out[k].pubkey])
    && (forall pk :: pk in done ==> exists k :: 0 <= k < |out| && out[k].pubkey == pk)
  }

  lemma ListsSnoc(out: seq<Extracted>, i: nat, s: InputMap, done: set<PublicKey>, pk: PublicKey)
    requires Lists(out, i, s, done) && pk in s.partialSigs
    ensures Lists(out + [Extracted(i, pk, s.partialSigs[pk])], i, s, done + {pk})
  {
    var all := out + [Extracted(i, pk, s.partialSigs[pk])];
    assert all[|out|].pubkey == pk;
    forall q | q in done ensures exists k :: 0 <= k < |all| && all[k].pubkey == q {
      var k :| 0 <= k < |out| && out[k].pubkey == q;
      assert all[k].pubkey == q;
    }
  }

  lemma RefusedKey(c: Crypto, original: Psbt, i: nat, s: InputMap, fp: Fingerprint, pk: PublicKey, e: ValidationError)
    requires i < |original.inputs| && pk in Added(original.inputs[i], s)
    requires
      || (e == SignatureNotBoundToSigner(i, pk, fp) && !BoundTo(original.inputs[i], pk, fp))
      || (e == NonSigHashAllSighash(i) && s.partialSigs[pk].sighashType != SIGHASH_ALL)
      || (e == SighashComputation(i) && c.sighash(original, i).None?)
      || (e == InvalidPartialSignature(i) && c.sighash(original, i).Some?
          && !c.verifies(c.sighash(original, i).value, s.partialSigs[pk].bytes, pk.inner))
    ensures InputDefect(c, original, i, s, fp, e)
    ensures !AddedByKeys(c, original, i, s, fp, Added(original.inputs[i], s))
  {
    assert !BoundTo(original.inputs[i], pk, fp) || !Genuine(c, original, i, pk, s.partialSigs[pk]);
  }

  lemma OneMoreAdded(c: Crypto, original: Psbt, i: nat, s: InputMap, fp: Fingerprint, keys: set<PublicKey>,
                     pk: PublicKey)
    requires i < |original.inputs| && keys <= s.partialSigs.Keys && pk in s.partialSigs
    requires AddedByKeys(c, original, i, s, fp, keys)
    requires BoundTo(original.inputs[i], pk, fp) && Genuine(c, original, i, pk, s.partialSigs[pk])
    ensures AddedByKeys(c, original, i, s, fp, keys + {pk})
  {
  }

  /** One added signature: bound to the signer, and genuine. */
  method ValidateOne(c: Crypto, original: Psbt, i: nat, s: InputMap, fp: Fingerprint, pk: PublicKey)
      returns (e: Option<ValidationError>)
    requires i < |original.inputs| && pk in Added(original.inputs[i], s)
    ensures e.None? <==> BoundTo(original.inputs[i], pk, fp) && Genuine(c, original, i, pk, s.partialSigs[pk])
    ensures e.Some? ==> InputDefect(c, original, i, s, fp, e.value)
                        && !AddedByKeys(c, original, i, s, fp, Added(original.inputs[i], s))
  {
    if !BoundTo(original.inputs[i], pk, fp) {
      RefusedKey(c, original, i, s, fp, pk, SignatureNotBoundToSigner(i, pk, fp));
      return Some(SignatureNotBoundToSigner(i, pk, fp));
    }
    e := VerifyPartialSig(c, original, i, pk, s.partialSigs[pk]);
    if e.Some? { RefusedKey(c, original, i, s, fp, pk, e.value); }
  }

  /** The loop over one input's signatures, visited in any order. */
  method ValidateAdded(c: Crypto, original: Psbt, i: nat, s: InputMap, fp: Fingerprint)
      returns (r: Result<seq<Extracted>, ValidationError>)
    requires i < |original.inputs|
    ensures r.Success? <==> AddedByKeys(c, original, i, s, fp, Added(original.inputs[i], s))
    ensures r.Success? ==> Lists(r.value, i, s, Added(original.inputs[i], s))
    ensures r.Failure? ==> InputDefect(c, original, i, s, fp, r.error)
  {
    var o := original.inputs[i];
    var extracted: seq<Extracted> := [];
    var todo := s.partialSigs.Keys;
    ghost var done: set<PublicKey> := {};
    while todo != {}
      invariant todo <= s.partialSigs.Keys
      invariant done <= Added(o, s) <= done + todo
      invariant AddedByKeys(c, original, i, s, fp, done)
      invariant Lists(extracted, i, s, done)
      decreases |todo|
    {
      var pk :| pk in todo;
      todo := todo - {pk};
      if pk !in o.partialSigs {
        var e := ValidateOne(c, original, i, s, fp, pk);
        if e.Some? { return Failure(e.value); }
        ListsSnoc(extracted, i, s, done, pk);
        OneMoreAdded(c, original, i, s, fp, done, pk);
        extracted := extracted + [Extracted(i, pk, s.partialSigs[pk])];
        done := done + {pk};
      }
    }
    assert done == Added(o, s);
    r := Success(extracted);
  }

  /** One input of a submission. */
  method ValidateInput(c: Crypto, original: Psbt, i: nat, s: InputMap, fp: Fingerprint)
      returns (r: Result<seq<Extracted>, ValidationError>)
    requires i < |original.inputs|
    ensures r.Success? <==> InputSound(c, original, i, s, fp)
    ensures r.Success? ==> Lists(r.value, i, s, Added(original.inputs[i], s))
    ensures r.Failure? ==> InputDefect(c, original, i, s, fp, r.error)
  {
    var o := original.inputs[i];
    var kept := CheckSigsKept(o, s);
    if !kept { return Failure(PartialSignatureRemoved(i)); }
    if s.(partialSigs := o.partialSigs) != o { return Failure(InputFieldModified(i)); }
    assert s == o.(partialSigs := s.partialSigs);
    r := ValidateAdded(c, original, i, s, fp);
  }

  /** The extraction from inputs `0..n`: every added signature once, and only those. */
  ghost predicate ExtractedUpTo(out: seq<Extracted>, original: Psbt, signed: Psbt, n: nat)
    requires n <= |original.inputs| == |signed.inputs|
  {
    && (forall k :: 0 <= k < |out| ==> out[k].index < n && FromSubmission(out[k], original, signed))
    && (forall i, pk :: 0 <= i < n && pk in Added(original.inputs[i], signed.inputs[i]) ==> Mentions(out, i, pk))
  }

  ghost predicate FromSubmission(x: Extracted, original: Psbt, signed: Psbt)
    requires |original.inputs| == |signed.inputs|
  {
    && x.index < |original.inputs|
    && x.pubkey in Added(original.inputs[x.index], signed.inputs[x.index])
    && x.signature == signed.inputs[x.index].partialSigs[x.pubkey]
  }

  ghost predicate Mentions(out: seq<Extracted>, i: nat, pk: PublicKey) {
    exists k :: 0 <= k < |out| && out[k].index == i && out[k].pubkey == pk
  }

  lemma MentionsConcat(a: seq<Extracted>, b: seq<Extracted>, i: nat, pk: PublicKey)
    ensures Mentions(a + b, i, pk) <==> Mentions(a, i, pk) || Mentions(b, i, pk)
  {
    var ab := a + b;
    if Mentions(a, i, pk) {
      var k :| 0 <= k < |a| && a[k].index == i && a[k].pubkey == pk;
      assert ab[k] == a[k];
    }
    if Mentions(b, i, pk) {
      var k :| 0 <= k < |b| && b[k].index == i && b[k].pubkey == pk;
      assert ab[|a| + k] == b[k];
    }
    if Mentions(ab, i, pk) {
      var k :| 0 <= k < |ab| && ab[k].index == i && ab[k].pubkey == pk;
      if k < |a| { assert a[k] == ab[k]; } else { assert b[k - |a|] == ab[k]; }
    }
  }

  lemma ExtractionGrows(out: seq<Extracted>, more: seq<Extracted>, original: Psbt, signed: Psbt, n: nat)
    requires n < |original.inputs| == |signed.inputs|
    requires ExtractedUpTo(out, original, signed, n)
    requires Lists(more, n, signed.inputs[n], Added(original.inputs[n], signed.inputs[n]))
    ensures ExtractedUpTo(out + more, original, signed, n + 1)
  {
    var all := out + more;
    forall k | 0 <= k < |all| ensures all[k].index < n + 1 && FromSubmission(all[k], original, signed) {
      if k >= |out| { assert all[k] == more[k - |out|]; }
    }
    forall i, pk | 0 <= i < n + 1 && pk in Added(original.inputs[i], signed.inputs[i]) ensures Mentions(all, i, pk) {
      MentionsConcat(out, more, i, pk);
      if i == n {
        var k :| 0 <= k < |more| && more[k].pubkey == pk;
        assert more[k].index == n;
      }
    }
  }

  method CheckFrame(original: Psbt, signed: Psbt) returns (e: Option<ValidationError>)
    ensures e.None? <==> SameFrame(original, signed)
    ensures e.Some? ==> forall c, fp :: Truthful(c, original, signed, fp, e.value)
  {
    if signed.unsignedTx != original.unsignedTx { return Some(UnsignedTxModified); }
    if |signed.inputs| != |original.inputs| || |signed.outputs| != |original.outputs| {
      return Some(InputOutputCountMismatch);
    }
    if signed.globals != original.globals { return Some(GlobalFieldModified); }
    var i := 0;
    while i < |original.outputs|
      invariant 0 <= i <= |original.outputs|
      invariant signed.outputs[..i] == original.outputs[..i]
    {
      if signed.outputs[i] != original.outputs[i] { return Some(OutputFieldModified(i)); }
      i := i + 1;
    }
    assert signed.outputs[..i] == signed.outputs && original.outputs[..i] == original.outputs;
    e := None;
  }

  /** Accepts exactly the acceptable submissions, and returns every signature
      they add; a refusal names a defect that is there. */
  method ValidateSignedSubmission(c: Crypto, original: Psbt, signed: Psbt, fp: Fingerprint)
      returns (r: Result<seq<Extracted>, ValidationError>)
    ensures r.Success? <==> Acceptable(c, original, signed, fp)
    ensures r.Success? ==> ExtractedUpTo(r.value, original, signed, |original.inputs|)
    ensures r.Failure? ==> Truthful(c, original, signed, fp, r.error)
  {
    var frame := CheckFrame(original, signed);
    if frame.Some? { return Failure(frame.value); }
    var extracted: seq<Extracted> := [];
    var firstIncomplete: Option<nat> := None;
    var i := 0;
    while i < |original.inputs|
      invariant 0 <= i <= |original.inputs|
      invariant forall j :: 0 <= j < i ==> InputSound(c, original, j, signed.inputs[j], fp)
      invariant ExtractedUpTo(extracted, original, signed, i)
      invariant firstIncomplete.None? ==>
                  forall j :: 0 <= j < i ==> Added(original.inputs[j], signed.inputs[j]) != {}
      invariant firstIncomplete.Some? ==>
                  firstIncomplete.value < i
                  && Added(original.inputs[firstIncomplete.value], signed.inputs[firstIncomplete.value]) == {}
                  && forall j :: 0 <= j < firstIncomplete.value ==> Added(original.inputs[j], signed.inputs[j]) != {}
    {
      var here := ValidateInput(c, original, i, signed.inputs[i], fp);
      match here {
        case Failure(e) => return Failure(e);
        case Success(found) =>
          NoneFoundIffNoneAdded(found, i, signed.inputs[i], Added(original.inputs[i], signed.inputs[i]));
          ExtractionGrows(extracted, found, original, signed, i);
          if |found| == 0 && firstIncomplete.None? { firstIncomplete := Some(i); }
          extracted := extracted + found;
          i := i + 1;
      }
    }
    if |extracted| == 0 {
      assert extracted == [];
      NothingExtracted(original, signed);
      assert |original.inputs| > 0 ==> Added(original.inputs[0], signed.inputs[0]) == {};
      return Failure(NoNewSignatures);
    }
    if firstIncomplete.Some? { return Failure(IncompleteSubmission(firstIncomplete.value)); }
    assert extracted[0].index < |original.inputs|;
    r := Success(extracted);
  }

  lemma NoneFoundIffNoneAdded(found: seq<Extracted>, i: nat, s: InputMap, added: set<PublicKey>)
    requires Lists(found, i, s, added)
    ensures |found| == 0 <==> added == {}
  {
    if |found| > 0 { assert found[0].pubkey in added; }
  }

  lemma NothingExtracted(original: Psbt, signed: Psbt)
    requires |original.inputs| == |signed.inputs|
    requires ExtractedUpTo([], original, signed, |original.inputs|)
    ensures forall i :: 0 <= i < |original.inputs| ==> Added(original.inputs[i], signed.inputs[i]) == {}
  {
    forall i | 0 <= i < |original.inputs| ensures Added(original.inputs[i], signed.inputs[i]) == {} {
      forall pk | pk in Added(original.inputs[i], signed.inputs[i]) ensures Mentions([], i, pk) {}
    }
  }

  // --- the rebuilt document ---

  function InsertSig(psbt: Psbt, x: Extracted): Psbt {
    if x.index < |psbt.inputs| then
      var input := psbt.inputs[x.index];
      psbt.(inputs := psbt.inputs[x.index := input.(partialSigs := input.partialSigs[x.pubkey := x.signature])])
    else psbt
  }

  function Merge(original: Psbt, sigs: seq<Extracted>): Psbt {
    if sigs == [] then original else InsertSig(Merge(original, sigs[..|sigs| - 1]), sigs[|sigs| - 1])
  }

  method MergePartialSigs(original: Psbt, sigs: seq<Extracted>) returns (merged: Psbt)
    requires forall k :: 0 <= k < |sigs| ==> sigs[k].index < |original.inputs|
    ensures merged == Merge(original, sigs)
  {
    merged := original;
    var k := 0;
    while k < |sigs|
      invariant 0 <= k <= |sigs|
      invariant merged == Merge(original, sigs[..k]) && |merged.inputs| == |original.inputs|
    {
      var x := sigs[k];
      var input := merged.inputs[x.index];
      merged := merged.(inputs := merged.inputs[x.index :=
        input.(partialSigs := input.partialSigs[x.pubkey := x.signature])]);
      assert sigs[..k + 1][..k] == sigs[..k];
      k := k + 1;
    }
    assert sigs[..k] == sigs;
  }

  /** Part of the way from `original` to `signed`: the signatures `out` mentions. */
  ghost predicate PartlyMerged(original: Psbt, signed: Psbt, out: seq<Extracted>, m: Psbt)
    requires |original.inputs| == |signed.inputs|
  {
    && SameFrame(original, m)
    && forall i :: 0 <= i < |original.inputs| ==>
         PartlySigned(original.inputs[i], signed.inputs[i], out, i, m.inputs[i])
  }

  ghost predicate PartlySigned(o: InputMap, s: InputMap, out: seq<Extracted>, i: nat, m: InputMap) {
    && m == o.(partialSigs := m.partialSigs)
    && (forall pk :: pk in m.partialSigs <==> pk in o.partialSigs || Mentions(out, i, pk))
    && (forall pk :: pk in m.partialSigs && pk in s.partialSigs ==> m.partialSigs[pk] == s.partialSigs[pk])
  }

  lemma {:induction false} MergeMeaning(original: Psbt, signed: Psbt, out: seq<Extracted>)
    requires |original.inputs| == |signed.inputs|
    requires forall i :: 0 <= i < |original.inputs| ==> SigsKept(original.inputs[i], signed.inputs[i])
    requires forall k :: 0 <= k < |out| ==> FromSubmission(out[k], original, signed)
    ensures PartlyMerged(original, signed, out, Merge(original, out))
  {
    if out == [] {
      forall i, pk ensures !Mentions(out, i, pk) {}
    } else {
      var front, x := out[..|out| - 1], out[|out| - 1];
      assert out == front + [x];
      MergeMeaning(original, signed, front);
      var before, m := Merge(original, front), Merge(original, out);
      forall i | 0 <= i < |original.inputs|
        ensures PartlySigned(original.inputs[i], signed.inputs[i], out, i, m.inputs[i])
      {
        forall pk ensures Mentions(out, i, pk) <==> Mentions(front, i, pk) || (x.index == i && x.pubkey == pk) {
          MentionsConcat(front, [x], i, pk);
          assert x.index == i && x.pubkey == pk ==> [x][0].index == i && [x][0].pubkey == pk;
        }
        assert PartlySigned(original.inputs[i], signed.inputs[i], front, i, before.inputs[i]);
      }
    }
  }

  /** Merge inverts extraction: the document rebuilt from the original and the
      extracted signatures is the submission itself. */
  lemma AcceptAndRebuild(c: Crypto, original: Psbt, signed: Psbt, fp: Fingerprint, out: seq<Extracted>)
    requires Acceptable(c, original, signed, fp)
    requires ExtractedUpTo(out, original, signed, |original.inputs|)
    ensures Merge(original, out) == signed
  {
    MergeMeaning(original, signed, out);
    var m := Merge(original, out);
    forall i | 0 <= i < |original.inputs| ensures m.inputs[i] == signed.inputs[i] {
      var o, s := original.inputs[i], signed.inputs[i];
      assert PartlySigned(o, s, out, i, m.inputs[i]) && InputSound(c, original, i, s, fp);
      forall pk | Mentions(out, i, pk) ensures pk in s.partialSigs {
        var k :| 0 <= k < |out| && out[k].index == i && out[k].pubkey == pk;
        assert FromSubmission(out[k], original, signed);
      }
      forall pk | pk in s.partialSigs ensures pk in m.inputs[i].partialSigs {
        assert pk in o.partialSigs || pk in Added(o, s);
      }
      assert m.inputs[i].partialSigs == s.partialSigs;
    }
    assert m.inputs == signed.inputs;
  }
}
