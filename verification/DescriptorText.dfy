/** The canonical form, spelled out: which keys a descriptor has, in which order,
    and the text that is hashed. */
module DescriptorText {
  import opened Foundation
  import opened Documents
  import opened Sorting
  import opened Descriptors

  /** Dictionary order: a proper beginning, or smaller at the first difference. */
  ghost predicate Before(a: string, b: string) {
    a <= b || exists k :: 0 <= k < |a| && k < |b| && a[..k] == b[..k] && a[k] < b[k]
  }

  lemma {:induction false} LexMeaning(a: string, b: string)
    ensures LexLe(a, b) <==> Before(a, b)
  {
    if a != [] && b != [] {
      LexMeaning(a[1..], b[1..]);
      if LexLe(a, b) && a[0] == b[0] { LaterDifference(a, b); }
      if Before(a, b) && a[0] == b[0] { EarlierDifference(a, b); }
      if a[0] < b[0] { assert a[..0] == b[..0]; }
    }
  }

  lemma LaterDifference(a: string, b: string)
    requires a != [] && b != [] && a[0] == b[0] && Before(a[1..], b[1..])
    ensures Before(a, b)
  {
    if a[1..] <= b[1..] {
      assert a == [a[0]] + a[1..] && b == [b[0]] + b[1..];
    } else {
      var k :| 0 <= k < |a[1..]| && k < |b[1..]| && a[1..][..k] == b[1..][..k] && a[1..][k] < b[1..][k];
      assert a[..k + 1] == [a[0]] + a[1..][..k] && b[..k + 1] == [b[0]] + b[1..][..k];
      assert a[k + 1] == a[1..][k] && b[k + 1] == b[1..][k];
    }
  }

  lemma EarlierDifference(a: string, b: string)
    requires a != [] && b != [] && a[0] == b[0] && Before(a, b)
    ensures Before(a[1..], b[1..])
  {
    if a <= b {
      assert a[1..] == b[1..][..|a| - 1];
    } else {
      var k :| 0 <= k < |a| && k < |b| && a[..k] == b[..k] && a[k] < b[k];
      assert k > 0;
      assert a[1..][..k - 1] == a[..k][1..] && b[1..][..k - 1] == b[..k][1..];
      assert a[1..][k - 1] == a[k] && b[1..][k - 1] == b[k];
    }
  }

  /** A descriptor is made exactly of 1 <= threshold <= keys <= 20 segwit keys; it
      has those keys, in dictionary order of their texts. */
  lemma DescriptorMeaning(threshold: nat, keys: seq<Key>)
    ensures SortedMulti(threshold, keys).Success? <==>
            1 <= threshold <= |keys| <= 20 && forall k :: k in keys ==> k.segwit
    ensures SortedMulti(threshold, keys) == Failure(BadThreshold) <==> !(1 <= threshold <= |keys| <= 20)
    ensures SortedMulti(threshold, keys).Success? ==>
              var d := SortedMulti(threshold, keys).value;
              && d.threshold == threshold && multiset(d.keys) == multiset(keys)
              && forall i, j :: 0 <= i < j < |d.keys| ==> Before(d.keys[i].text, d.keys[j].text)
  {
    KeyOrder();
    SortSorts(keys, KeyLe);
    forall k | AllSegwit(keys) && k in keys ensures k.segwit {}
    if forall k :: k in keys ==> k.segwit {
      forall i | 0 <= i < |keys| ensures keys[i].segwit { assert keys[i] in keys; }
    }
    var sorted := Sort(keys, KeyLe);
    forall i, j | 0 <= i < j < |sorted| ensures Before(sorted[i].text, sorted[j].text) {
      assert KeyLe(sorted[i], sorted[j]);
      LexMeaning(sorted[i].text, sorted[j].text);
    }
  }

  /** The number a decimal text stands for. */
  function Value(s: string): nat
    requires forall i :: 0 <= i < |s| ==> '0' <= s[i] <= '9'
  {
    if s == [] then 0 else 10 * Value(s[..|s| - 1]) + (s[|s| - 1] as int - '0' as int)
  }

  lemma {:induction false} DecimalMeaning(n: nat)
    ensures Value(Decimal(n)) == n
    ensures n > 0 ==> Decimal(n)[0] != '0'
  {
    if n >= 10 {
      DecimalMeaning(n / 10);
      assert Decimal(n)[..|Decimal(n)| - 1] == Decimal(n / 10);
    } else {
      assert Decimal(n)[..0] == [];
      assert Value([]) == 0;
    }
  }

  /** Texts with a comma before each. */
  function Listed(texts: seq<string>): string {
    if texts == [] then "" else "," + texts[0] + Listed(texts[1..])
  }

  lemma {:induction false} KeyListMeaning(keys: seq<Key>)
    ensures KeyList(keys) == Listed(Texts(keys)) + "))"
  {
    if keys != [] {
      KeyListMeaning(keys[1..]);
      assert Texts(keys)[1..] == Texts(keys[1..]);
      assert KeyList(keys) == "," + keys[0].text + (Listed(Texts(keys[1..])) + "))");
    }
  }

  /** The name a network is printed under. */
  function Printed(network: Network): string {
    match network
    case Bitcoin => "bitcoin"
    case Testnet => "testnet"
    case Testnet4 => "testnet4"
    case Signet => "signet"
    case Regtest => "regtest"
  }

  lemma Glue(network: string, head: string, number: string, list: string, tail: string)
    ensures network + ":" + (head + number + (list + tail)) == network + (":" + head) + number + list + tail
  {
  }

  /** What is hashed, letter by letter. */
  lemma FingerprintText(d: Descriptor, network: Network)
    requires CleanKeys(d.keys)
    ensures FingerprintOf(d, network).text
            == Printed(network) + ":wsh(sortedmulti(" + Decimal(d.threshold) + Listed(Texts(d.keys)) + "))"
  {
    BodyHasNoHash(d);
    CutAtHash(Body(d), "");
    KeyListMeaning(d.keys);
    Glue(NetworkText(network), HEAD, Decimal(d.threshold), Listed(Texts(d.keys)), "))");
    assert ":wsh(sortedmulti(" == ":" + HEAD;
    hide BeforeHash, KeyList, Decimal, Listed;
  }
}
