/** Canonical descriptors and the wallet's content address. */
module Descriptors {
  import opened Foundation
  import opened Documents
  import opened Sorting

  // --- string order ---

  predicate LexLe(a: string, b: string) {
    a == [] || (b != [] && (a[0] < b[0] || (a[0] == b[0] && LexLe(a[1..], b[1..]))))
  }

  lemma {:induction false} LexTotal(a: string, b: string)
    ensures LexLe(a, b) || LexLe(b, a)
  {
    if a != [] && b != [] { LexTotal(a[1..], b[1..]); }
  }

  lemma {:induction false} LexTransitive(a: string, b: string, c: string)
    requires LexLe(a, b) && LexLe(b, c)
    ensures LexLe(a, c)
  {
    if a != [] && a[0] == b[0] == c[0] { LexTransitive(a[1..], b[1..], c[1..]); }
  }

  lemma {:induction false} LexAntisymmetric(a: string, b: string)
    requires LexLe(a, b) && LexLe(b, a)
    ensures a == b
  {
    if a != [] {
      LexAntisymmetric(a[1..], b[1..]);
      assert a == [a[0]] + a[1..] && b == [b[0]] + b[1..];
    }
  }

  predicate KeyLe(a: Key, b: Key) { LexLe(a.text, b.text) }

  lemma KeyOrder()
    ensures TotalPreorder(KeyLe)
  {
    forall a: Key, b: Key ensures KeyLe(a, b) || KeyLe(b, a) { LexTotal(a.text, b.text); }
    forall a: Key, b: Key, c: Key | KeyLe(a, b) && KeyLe(b, c) ensures KeyLe(a, c) {
      LexTransitive(a.text, b.text, c.text);
    }
  }

  /** Distinct keys print differently. */
  ghost predicate TextIdentifies(keys: seq<Key>) {
    forall a, b :: a in keys && b in keys && a.text == b.text ==> a == b
  }

  lemma KeyOrderAntisymmetric(keys: seq<Key>)
    requires TextIdentifies(keys)
    ensures AntisymmetricOn(KeyLe, keys)
  {
    forall a, b | a in keys && b in keys && KeyLe(a, b) && KeyLe(b, a) ensures a == b {
      LexAntisymmetric(a.text, b.text);
    }
  }

  // --- construction ---

  /** Consensus limit on keys in a multisig script. */
  const MAX_PUBKEYS_PER_MULTISIG := 20

  datatype DescriptorError = BadThreshold | UnusableKey

  predicate AllSegwit(keys: seq<Key>) {
    forall i :: 0 <= i < |keys| ==> keys[i].segwit
  }

  function SortedMulti(threshold: nat, keys: seq<Key>): Result<Descriptor, DescriptorError> {
    if threshold == 0 || threshold > |keys| || |keys| > MAX_PUBKEYS_PER_MULTISIG then Failure(BadThreshold)
    else if !AllSegwit(keys) then Failure(UnusableKey)
    else Success(Descriptor(threshold, Sort(keys, KeyLe)))
  }

  /** The descriptor depends on the set of keys, not on the order they came in. */
  lemma OrderIndependent(threshold: nat, a: seq<Key>, b: seq<Key>)
    requires multiset(a) == multiset(b) && TextIdentifies(a)
    ensures SortedMulti(threshold, a) == SortedMulti(threshold, b)
  {
    KeyOrder();
    KeyOrderAntisymmetric(a);
    SortCanonical(a, b, KeyLe);
    SameElements(a, b);
    if AllSegwit(a) {
      forall i | 0 <= i < |b| ensures b[i].segwit { assert b[i] in a; }
    }
    if AllSegwit(b) {
      forall i | 0 <= i < |a| ensures a[i].segwit { assert a[i] in b; }
    }
  }

  // --- text form ---

  function Digit(n: nat): (c: char)
    requires n < 10
    ensures '0' <= c <= '9'
  {
    (n + '0' as int) as char
  }

  function Decimal(n: nat): (s: string)
    ensures s != [] && forall i :: 0 <= i < |s| ==> '0' <= s[i] <= '9'
  {
    if n < 10 then [Digit(n)] else Decimal(n / 10) + [Digit(n % 10)]
  }

  lemma {:induction false} DecimalInjective(m: nat, n: nat)
    requires Decimal(m) == Decimal(n)
    ensures m == n
  {
    var s, t := Decimal(m), Decimal(n);
    assert s[|s| - 1] == Digit(m % 10) && t[|t| - 1] == Digit(n % 10);
    assert m % 10 == n % 10;
    assert (m >= 10 <==> |s| >= 2) && (n >= 10 <==> |t| >= 2);
    if m >= 10 {
      assert s[..|s| - 1] == Decimal(m / 10) && t[..|t| - 1] == Decimal(n / 10);
      DecimalInjective(m / 10, n / 10);
    }
  }

  /** The rest of the text from the first key on. */
  function KeyList(keys: seq<Key>): (s: string)
    ensures s != [] && s[0] == if keys == [] then ')' else ','
  {
    if keys == [] then "))" else "," + keys[0].text + KeyList(keys[1..])
  }

  const HEAD := "wsh(sortedmulti("

  function Body(d: Descriptor): string {
    HEAD + Decimal(d.threshold) + KeyList(d.keys)
  }

  /** The text before the first `#`, or all of it. */
  function BeforeHash(s: string): string {
    if s == [] || s[0] == '#' then [] else [s[0]] + BeforeHash(s[1..])
  }

  function NetworkText(n: Network): string {
    match n
    case Bitcoin => "bitcoin"
    case Testnet => "testnet"
    case Testnet4 => "testnet4"
    case Signet => "signet"
    case Regtest => "regtest"
  }

  /** SHA-256 of a text, symbolically. */
  datatype DescriptorFingerprint = DigestOf(text: string)

  /** What is hashed: the network and the printed descriptor cut at `#`. */
  function TextFingerprint(printed: string, network: Network): DescriptorFingerprint {
    DigestOf(NetworkText(network) + ":" + BeforeHash(printed))
  }

  function FingerprintOf(d: Descriptor, network: Network): DescriptorFingerprint {
    TextFingerprint(Body(d), network)
  }

  // --- the fingerprint identifies network, threshold and keys, and no more ---

  /** Key texts use none of the descriptor's own punctuation. */
  predicate Clean(s: string) {
    forall i :: 0 <= i < |s| ==> s[i] != ',' && s[i] != ')' && s[i] != '#'
  }

  predicate CleanKeys(keys: seq<Key>) {
    forall i :: 0 <= i < |keys| ==> Clean(keys[i].text)
  }

  predicate NoHash(s: string) {
    forall i :: 0 <= i < |s| ==> s[i] != '#'
  }

  lemma {:induction false} KeyListHasNoHash(keys: seq<Key>)
    requires CleanKeys(keys)
    ensures NoHash(KeyList(keys))
  {
    if keys != [] { KeyListHasNoHash(keys[1..]); }
  }

  lemma {:induction false} CutAtHash(a: string, b: string)
    requires NoHash(a)
    ensures BeforeHash(a + "#" + b) == a && BeforeHash(a) == a
  {
    if a == [] {
      assert a + "#" + b == "#" + b;
    } else {
      CutAtHash(a[1..], b);
      assert (a + "#" + b)[1..] == a[1..] + "#" + b;
      assert a == [a[0]] + a[1..];
    }
  }

  lemma BodyHasNoHash(d: Descriptor)
    requires CleanKeys(d.keys)
    ensures NoHash(Body(d))
  {
    KeyListHasNoHash(d.keys);
  }

  /** The checksum suffix, whatever it is, does not enter the fingerprint. */
  lemma ChecksumIgnored(d: Descriptor, network: Network, checksum: string)
    requires CleanKeys(d.keys)
    ensures TextFingerprint(Body(d) + "#" + checksum, network) == FingerprintOf(d, network)
  {
    BodyHasNoHash(d);
    CutAtHash(Body(d), checksum);
  }

  /** Two texts split the same way at their first delimiter. */
  lemma SplitUnique(p: string, x: string, q: string, y: string, stop: set<char>)
    requires p + x == q + y && x != [] && y != [] && x[0] in stop && y[0] in stop
    requires forall i :: 0 <= i < |p| ==> p[i] !in stop
    requires forall i :: 0 <= i < |q| ==> q[i] !in stop
    ensures p == q && x == y
  {
    var s := p + x;
    assert s[|p|] in stop && forall i :: 0 <= i < |p| ==> s[i] !in stop;
    assert s[|q|] == (q + y)[|q|] == y[0] && forall i :: 0 <= i < |q| ==> s[i] == (q + y)[i] == q[i];
    assert |p| == |q|;
    assert p == s[..|p|] && q == s[..|q|] && x == s[|p|..] && y == s[|q|..];
  }

  function Texts(keys: seq<Key>): (r: seq<string>)
    ensures |r| == |keys| && forall i :: 0 <= i < |r| ==> r[i] == keys[i].text
  {
    seq(|keys|, i requires 0 <= i < |keys| => keys[i].text)
  }

  lemma {:induction false} KeyListInjective(a: seq<Key>, b: seq<Key>)
    requires CleanKeys(a) && CleanKeys(b) && KeyList(a) == KeyList(b)
    ensures Texts(a) == Texts(b)
  {
    if a != [] && b != [] {
      assert KeyList(a)[1..] == a[0].text + KeyList(a[1..]);
      assert KeyList(b)[1..] == b[0].text + KeyList(b[1..]);
      SplitUnique(a[0].text, KeyList(a[1..]), b[0].text, KeyList(b[1..]), {',', ')'});
      KeyListInjective(a[1..], b[1..]);
      forall i | 0 <= i < |a| ensures a[i].text == b[i].text {
        if i > 0 {
          assert Texts(a[1..])[i - 1] == a[i].text && Texts(b[1..])[i - 1] == b[i].text;
        }
      }
    }
  }

  lemma NetworkTextInjective(m: Network, n: Network)
    requires NetworkText(m) == NetworkText(n)
    ensures m == n
  {
    assert NetworkText(m)[0] == NetworkText(n)[0] && |NetworkText(m)| == |NetworkText(n)|;
  }

  lemma NetworkTextPlain(n: Network)
    ensures forall i :: 0 <= i < |NetworkText(n)| ==> NetworkText(n)[i] != ':'
  {
  }

  lemma BodyInjective(d: Descriptor, e: Descriptor)
    requires CleanKeys(d.keys) && CleanKeys(e.keys) && Body(d) == Body(e)
    ensures d.threshold == e.threshold && Texts(d.keys) == Texts(e.keys)
  {
    assert Body(d)[|HEAD|..] == Decimal(d.threshold) + KeyList(d.keys);
    assert Body(e)[|HEAD|..] == Decimal(e.threshold) + KeyList(e.keys);
    SplitUnique(Decimal(d.threshold), KeyList(d.keys), Decimal(e.threshold), KeyList(e.keys), {',', ')'});
    DecimalInjective(d.threshold, e.threshold);
    KeyListInjective(d.keys, e.keys);
  }

  lemma TaggedInjective(m: Network, a: string, n: Network, b: string)
    requires NetworkText(m) + ":" + a == NetworkText(n) + ":" + b
    ensures m == n && a == b
  {
    NetworkTextPlain(m);
    NetworkTextPlain(n);
    assert NetworkText(m) + (":" + a) == NetworkText(m) + ":" + a;
    assert NetworkText(n) + (":" + b) == NetworkText(n) + ":" + b;
    SplitUnique(NetworkText(m), ":" + a, NetworkText(n), ":" + b, {':'});
    NetworkTextInjective(m, n);
    assert (":" + a)[1..] == a && (":" + b)[1..] == b;
  }

  /** Equal fingerprints mean equal wallets: same network, same threshold, same
      keys as printed, in the same order. */
  lemma FingerprintIdentifies(d: Descriptor, m: Network, e: Descriptor, n: Network)
    requires CleanKeys(d.keys) && CleanKeys(e.keys)
    requires FingerprintOf(d, m) == FingerprintOf(e, n)
    ensures m == n && d.threshold == e.threshold && Texts(d.keys) == Texts(e.keys)
  {
    BodyHasNoHash(d);
    BodyHasNoHash(e);
    CutAtHash(Body(d), "");
    CutAtHash(Body(e), "");
    TaggedInjective(m, Body(d), n, Body(e));
    BodyInjective(d, e);
  }
}
