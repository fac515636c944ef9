/** Which script keys a descriptor gives each of its keystores. Points are derived
    from key bodies while wallets tell keystores apart by the origins their
    submitters declare, so two keystores can share a point: by the same body under
    two origins, or by related bodies. */
module Keystores {
  import opened Foundation
  import opened Documents
  import opened Sorting
  import opened Spending
  import opened Quorum

  /** The fingerprint names the key among a wallet's own. */
  ghost predicate FingerprintNamesKey(keys: seq<Key>) {
    forall i, j :: (0 <= i < |keys| && 0 <= j < |keys|
                    && KeystoreFingerprint(keys[i]) == KeystoreFingerprint(keys[j])) ==> i == j
  }

  lemma DistinctFingerprintsName(keys: seq<Key>)
    requires Distinct(Fingerprints(keys))
    ensures FingerprintNamesKey(keys)
  {
    var fps := Fingerprints(keys);
    forall i, j | 0 <= i < |keys| && 0 <= j < |keys| && KeystoreFingerprint(keys[i]) == KeystoreFingerprint(keys[j])
      ensures i == j
    {
      assert fps[i] == fps[j];
    }
  }

  /** No later key of the descriptor derives the same point. */
  ghost predicate LastOfPoint(child: Derivation, keys: seq<Key>, index: nat, a: int)
    requires 0 <= a < |keys|
  {
    forall b :: a < b < |keys| ==> ChildOf(child, keys[b], index) != ChildOf(child, keys[a], index)
  }

  lemma {:induction false} SourceOf(child: Derivation, keys: seq<Key>, index: nat, p: Point) returns (a: nat)
    requires p in SourcesAt(child, keys, index)
    ensures a < |keys| && LastOfPoint(child, keys, index, a) && p == ChildOf(child, keys[a], index)
    ensures SourcesAt(child, keys, index)[p] == SourceFor(keys[a], index)
  {
    var n := |keys| - 1;
    if p == ChildOf(child, keys[n], index) {
      a := n;
    } else {
      a := SourceOf(child, keys[..n], index, p);
      assert keys[..n][a] == keys[a];
      forall b | a < b < |keys| ensures ChildOf(child, keys[b], index) != ChildOf(child, keys[a], index) {
        if b < n { assert ChildOf(child, keys[..n][b], index) != ChildOf(child, keys[..n][a], index); }
      }
    }
  }

  lemma {:induction false} SourceAt(child: Derivation, keys: seq<Key>, index: nat, a: nat)
    requires a < |keys|
    ensures ChildOf(child, keys[a], index) in SourcesAt(child, keys, index)
    ensures LastOfPoint(child, keys, index, a) ==>
              SourcesAt(child, keys, index)[ChildOf(child, keys[a], index)] == SourceFor(keys[a], index)
  {
    var n := |keys| - 1;
    if a < n {
      SourceAt(child, keys[..n], index, a);
      assert keys[..n][a] == keys[a];
      if LastOfPoint(child, keys, index, a) {
        forall b | a < b < n ensures ChildOf(child, keys[..n][b], index) != ChildOf(child, keys[..n][a], index) {
          assert keys[..n][b] == keys[b];
        }
        assert ChildOf(child, keys[n], index) != ChildOf(child, keys[a], index);
      }
    }
  }

  /** What is built is a multisig with at most one key for each keystore, also when
      keystores share a point. */
  lemma BuiltInputIsMultisig(child: Derivation, d: Descriptor, utxo: FundingUtxo)
    requires FingerprintNamesKey(d.keys)
    ensures MultisigInput(InputFor(child, d, utxo), d.threshold)
  {
    var o := InputFor(child, d, utxo);
    forall k ensures k in o.witnessScript.value.keys <==> k in o.derivation {
      if k in o.witnessScript.value.keys {
        assert k in ChildKeys(child, d.keys, utxo.index);
        var a :| 0 <= a < |d.keys| && ChildKeys(child, d.keys, utxo.index)[a] == k;
        SourceAt(child, d.keys, utxo.index, a);
      }
      if k in o.derivation {
        var a := SourceOf(child, d.keys, utxo.index, k);
        assert ChildKeys(child, d.keys, utxo.index)[a] == k;
      }
    }
    forall k, l | k in o.derivation && l in o.derivation && o.derivation[k].fingerprint == o.derivation[l].fingerprint
      ensures k == l
    {
      var a := SourceOf(child, d.keys, utxo.index, k);
      var b := SourceOf(child, d.keys, utxo.index, l);
      assert a == b;
    }
  }

  // --- keystores that share a point ---

  /** No two keys derive the same point at the index: what the wallet does not
      check, because it compares declared origins. */
  ghost predicate DistinctPoints(child: Derivation, keys: seq<Key>, index: nat) {
    forall x, y :: x in keys && y in keys && ChildOf(child, x, index) == ChildOf(child, y, index) ==> x == y
  }

  /** The keystore's key derives the same point as another key. */
  ghost predicate SharesPoint(child: Derivation, keys: seq<Key>, index: nat, fp: Fingerprint) {
    exists x, y :: x in keys && y in keys && x != y && KeystoreFingerprint(x) == fp
                   && ChildOf(child, x, index) == ChildOf(child, y, index)
  }

  /** Every key of the script is there once, and every keystore has one. */
  ghost predicate OneKeyPerKeystore(o: InputMap, keystores: seq<Fingerprint>) {
    && o.witnessScript.Some?
    && (forall k :: k in o.witnessScript.value.keys ==> o.witnessScript.value.keys[k] == 1)
    && forall fp :: fp in keystores ==> exists k :: Attributed(o, k, fp)
  }

  /** A point that two keys have is in the script twice, and no other is. */
  lemma PointTwice(child: Derivation, keys: seq<Key>, index: nat, a: nat, b: nat)
    requires a < |keys| && b < |keys| && a != b && ChildOf(child, keys[a], index) == ChildOf(child, keys[b], index)
    ensures multiset(ChildKeys(child, keys, index))[ChildOf(child, keys[a], index)] >= 2
  {
    var points := ChildKeys(child, keys, index);
    TwicePositions(points, if a < b then a else b, if a < b then b else a);
  }

  lemma PointOfTwo(child: Derivation, keys: seq<Key>, index: nat, a: nat) returns (b: nat)
    requires a < |keys| && multiset(ChildKeys(child, keys, index))[ChildOf(child, keys[a], index)] >= 2
    ensures b < |keys| && b != a && ChildOf(child, keys[b], index) == ChildOf(child, keys[a], index)
  {
    var points := ChildKeys(child, keys, index);
    RepeatedInBag(points, ChildOf(child, keys[a], index));
    var i, j :| 0 <= i < j < |points| && points[i] == ChildOf(child, keys[a], index) == points[j];
    b := if i == a then j else i;
  }

  /** Keystores that share a point share it with a key of another position. */
  lemma SharesPointAt(child: Derivation, keys: seq<Key>, index: nat, a: nat)
    requires FingerprintNamesKey(keys) && a < |keys|
    ensures SharesPoint(child, keys, index, KeystoreFingerprint(keys[a])) <==>
            exists b :: 0 <= b < |keys| && b != a && ChildOf(child, keys[b], index) == ChildOf(child, keys[a], index)
  {
    var fp := KeystoreFingerprint(keys[a]);
    if b :| 0 <= b < |keys| && b != a && ChildOf(child, keys[b], index) == ChildOf(child, keys[a], index) {
      assert keys[a] in keys && keys[b] in keys && keys[a] != keys[b];
    }
    if SharesPoint(child, keys, index, fp) {
      var x, y :| x in keys && y in keys && x != y && KeystoreFingerprint(x) == fp
                  && ChildOf(child, x, index) == ChildOf(child, y, index);
      var i :| 0 <= i < |keys| && keys[i] == x;
      var j :| 0 <= j < |keys| && keys[j] == y;
      assert j != a && ChildOf(child, keys[j], index) == ChildOf(child, keys[a], index);
    }
  }

  /** A signer's script key has several places exactly when another of the wallet's
      keys derives the same point at the coin's index. */
  lemma CopiesIff(child: Derivation, d: Descriptor, utxo: FundingUtxo, k: Point, fp: Fingerprint)
    requires FingerprintNamesKey(d.keys) && Attributed(InputFor(child, d, utxo), k, fp)
    ensures Copies(InputFor(child, d, utxo), fp) >= 2 <==> SharesPoint(child, d.keys, utxo.index, fp)
  {
    BuiltInputIsMultisig(child, d, utxo);
    CopiesAre(InputFor(child, d, utxo), d.threshold, k, fp);
    var a := SourceOf(child, d.keys, utxo.index, k);
    SharesPointAt(child, d.keys, utxo.index, a);
    if Copies(InputFor(child, d, utxo), fp) >= 2 {
      var b := PointOfTwo(child, d.keys, utxo.index, a);
    }
    if b :| 0 <= b < |d.keys| && b != a
            && ChildOf(child, d.keys[b], utxo.index) == ChildOf(child, d.keys[a], utxo.index)
    {
      PointTwice(child, d.keys, utxo.index, a, b);
    }
  }

  /** Exact condition: a built input is a multisig with one key for each keystore if
      and only if the wallet's keys derive distinct points at the coin's index. */
  lemma OneKeyPerKeystoreIff(child: Derivation, d: Descriptor, utxo: FundingUtxo)
    requires FingerprintNamesKey(d.keys)
    ensures OneKeyPerKeystore(InputFor(child, d, utxo), Fingerprints(d.keys))
            <==> DistinctPoints(child, d.keys, utxo.index)
  {
    if DistinctPoints(child, d.keys, utxo.index) { DistinctPointsGiveOneKey(child, d, utxo); }
    if OneKeyPerKeystore(InputFor(child, d, utxo), Fingerprints(d.keys)) { OneKeyGivesDistinctPoints(child, d, utxo); }
  }

  lemma DistinctPointsAreLast(child: Derivation, keys: seq<Key>, index: nat, a: nat)
    requires FingerprintNamesKey(keys) && DistinctPoints(child, keys, index) && a < |keys|
    ensures LastOfPoint(child, keys, index, a)
  {
    forall b | a < b < |keys| ensures ChildOf(child, keys[b], index) != ChildOf(child, keys[a], index) {
      assert keys[b] in keys && keys[a] in keys;
    }
  }

  lemma DistinctPointsGiveOneKey(child: Derivation, d: Descriptor, utxo: FundingUtxo)
    requires FingerprintNamesKey(d.keys) && DistinctPoints(child, d.keys, utxo.index)
    ensures OneKeyPerKeystore(InputFor(child, d, utxo), Fingerprints(d.keys))
  {
    var o := InputFor(child, d, utxo);
    forall fp | fp in Fingerprints(d.keys) ensures exists k :: Attributed(o, k, fp) {
      var a :| 0 <= a < |d.keys| && Fingerprints(d.keys)[a] == fp;
      DistinctPointsAreLast(child, d.keys, utxo.index, a);
      SourceAt(child, d.keys, utxo.index, a);
      assert Attributed(o, ChildOf(child, d.keys[a], utxo.index), fp);
    }
    forall k | k in o.witnessScript.value.keys ensures o.witnessScript.value.keys[k] == 1 {
      BuiltInputIsMultisig(child, d, utxo);
      var a := SourceOf(child, d.keys, utxo.index, k);
      var fp := KeystoreFingerprint(d.keys[a]);
      CopiesIff(child, d, utxo, k, fp);
      CopiesAre(o, d.threshold, k, fp);
    }
  }

  lemma OneKeyGivesDistinctPoints(child: Derivation, d: Descriptor, utxo: FundingUtxo)
    requires FingerprintNamesKey(d.keys) && OneKeyPerKeystore(InputFor(child, d, utxo), Fingerprints(d.keys))
    ensures DistinctPoints(child, d.keys, utxo.index)
  {
    forall x, y | x in d.keys && y in d.keys && ChildOf(child, x, utxo.index) == ChildOf(child, y, utxo.index)
      ensures x == y
    {
      var a :| 0 <= a < |d.keys| && d.keys[a] == x;
      var b :| 0 <= b < |d.keys| && d.keys[b] == y;
      if a != b { PointTwice(child, d.keys, utxo.index, a, b); }
    }
  }
}
