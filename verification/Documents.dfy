/** The documents that pass between signers and platform, as parsed values.

    Digests and scripts are symbolic: the constructor applied to what they commit
    to, so equal values come from equal preimages. Key derivation, signature
    verification, the sighash, transaction extraction and the transaction id stay
    unknown functions (`Crypto`). */
module Documents {
  import opened Foundation

  /** How a key turns into one key per index. A `Ranged` key ends in an unhardened
      wildcard; a `Fixed` one has no wildcard and is the same key at every index;
      an `Indefinite` one (multi-path, or with a hardened step or wildcard) can
      never be turned into one. */
  datatype KeyPath = Ranged | Fixed | Indefinite

  /** What child keys are derived from: the public key and the path to its
      children. `fingerprint` is the key's own fingerprint. */
  datatype KeyBody = KeyBody(fingerprint: Fingerprint, id: int, path: KeyPath)

  /** A descriptor public key: a body under the origin its submitter declares.
      `text` is its Display form; `segwit` says that the key may appear in a `wsh`
      descriptor. */
  datatype Key = Key(origin: Option<Fingerprint>, body: KeyBody, text: string, segwit: bool)

  /** A curve point. */
  datatype Point = Point(id: int)

  /** The point a body has at an index. Nothing is assumed of it: different bodies
      may have points in common, as a key and its own child key do. */
  type Derivation = (KeyBody, nat) -> Point

  /** A PSBT files signatures under the encoded key: the point together with
      the encoding (compressed or not). */
  datatype PublicKey = PublicKey(compressed: bool, inner: Point)

  const SIGHASH_ALL := 1

  datatype Signature = Signature(bytes: int, sighashType: int)

  /** The spending policy a P2WSH output commits to. `sortedmulti` orders the
      keys inside the script, so what matters is how often each occurs. */
  datatype MultisigScript = MultisigScript(threshold: nat, keys: multiset<Point>)

  /** One of the places a key takes in a script. */
  datatype Slot = Slot(point: Point, copy: nat)

  datatype ScriptPubKey = P2wsh(script: MultisigScript) | OtherScript(id: int)

  datatype OutPoint = OutPoint(txid: Txid, vout: U32)

  datatype TxOut = TxOut(value: U64, script: ScriptPubKey)

  /** `envelope` stands for version, lock time, sequences and script sigs. */
  datatype Transaction = Transaction(inputs: seq<OutPoint>, outputs: seq<TxOut>, envelope: int)

  /** `step` is the last step of the path, where the key has a wildcard. */
  datatype KeySource = KeySource(fingerprint: Fingerprint, step: Option<nat>)

  type PartialSigs = map<PublicKey, Signature>

  /** `rest` stands for every other field of the map; it is only ever compared. */
  datatype InputMap = InputMap(
    partialSigs: PartialSigs,
    derivation: map<Point, KeySource>,
    witnessScript: Option<MultisigScript>,
    witnessUtxo: Option<TxOut>,
    rest: int)

  datatype OutputMap = OutputMap(
    derivation: map<Point, KeySource>,
    witnessScript: Option<MultisigScript>,
    rest: int)

  datatype Globals = Globals(version: int, xpub: int, proprietary: int, unknown: int)

  datatype Psbt = Psbt(
    unsignedTx: Transaction,
    globals: Globals,
    inputs: seq<InputMap>,
    outputs: seq<OutputMap>)

  /** An extracted, broadcastable transaction. */
  type FinalTx = int

  datatype Blob = PsbtBlob(psbt: Psbt) | TxBlob(tx: FinalTx) | OtherBlob(id: int)

  /** The content address of a blob. */
  datatype PsbtHash = Sha256(content: Blob)

  datatype Crypto = Crypto(
    child: Derivation,
    /** message signed at an input under SIGHASH_ALL, if it can be computed */
    sighash: (Psbt, nat) -> Option<int>,
    /** does `bytes` verify as a signature of `message` under `point` */
    verifies: (int, int, Point) -> bool,
    extract: Psbt -> Option<FinalTx>,
    txid: FinalTx -> Txid)

  // --- what a spend moves ---

  /** A destination: the networks it is valid for, its script and the script's
      dust threshold. */
  datatype Address = Address(networks: set<Network>, script: ScriptPubKey, dust: U64)

  datatype SpendOutput = SpendOutput(address: Address, amount: U64)

  datatype ChangeOutput = ChangeOutput(amount: U64, index: U32)

  datatype SpendSpec = SpendSpec(
    inputs: seq<OutPoint>,
    outputs: seq<SpendOutput>,
    fee: U64,
    change: Option<ChangeOutput>)

  // --- descriptors ---

  /** `wsh(sortedmulti(threshold, keys...))`, keys in string order. */
  datatype Descriptor = Descriptor(threshold: nat, keys: seq<Key>)

  function KeystoreFingerprint(key: Key): Fingerprint {
    match key.origin
    case Some(fingerprint) => fingerprint
    case None => key.body.fingerprint
  }

  function Fingerprints(keys: seq<Key>): (r: seq<Fingerprint>)
    ensures |r| == |keys|
    ensures forall i :: 0 <= i < |r| ==> r[i] == KeystoreFingerprint(keys[i])
  {
    if keys == [] then [] else [KeystoreFingerprint(keys[0])] + Fingerprints(keys[1..])
  }
}
