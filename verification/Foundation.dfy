/** Shared vocabulary: failure-aware results, machine widths, and the
    identifiers every aggregate uses. */
module Foundation {

  datatype Option<+T> = None | Some(value: T)

  datatype Result<+T, +E> = Success(value: T) | Failure(error: E)

  const U32_LIMIT: nat := 0x1_0000_0000
  const U64_LIMIT: nat := 0x1_0000_0000_0000_0000

  type U32 = n: nat | n < U32_LIMIT
  type U64 = n: nat | n < U64_LIMIT

  /** The truncation of a collection length by `as u32`. */
  function AsU32(n: nat): U32 { n % U32_LIMIT }

  /** A BIP-32 master fingerprint: four bytes, ordered as bytes, which is the
      order of the big-endian number. */
  type Fingerprint = U32

  type UserId = int
  type WalletId = int
  type SessionId = int
  type Txid = int

  datatype Network = Bitcoin | Testnet | Testnet4 | Signet | Regtest

  /** No element occurs twice. */
  ghost predicate Distinct<T>(s: seq<T>) {
    forall i, j :: 0 <= i < j < |s| ==> s[i] != s[j]
  }

  lemma DistinctSnoc<T>(s: seq<T>, x: T)
    ensures Distinct(s + [x]) <==> Distinct(s) && x !in s
  {
    var t := s + [x];
    if Distinct(t) {
      forall i, j | 0 <= i < j < |s| ensures s[i] != s[j] {
        assert t[i] != t[j];
      }
      forall k | 0 <= k < |s| ensures s[k] != x {
        assert t[k] != t[|s|];
      }
    }
  }

  /** `None` after `Some` keeps the newest value: how a builder folds a log. */
  function Newest<T>(older: Option<T>, newer: Option<T>): Option<T> {
    if newer.Some? then newer else older
  }
}
