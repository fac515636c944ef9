/** Proposing a spend and building its unsigned PSBT: checked 64-bit sums that
    refine ideal conservation of value. */
module Spending {
  import opened Foundation
  import opened Documents

  datatype FundingUtxo = FundingUtxo(outpoint: OutPoint, txout: TxOut, index: U32)

  datatype BuildError =
    | MissingFunding(outpoint: OutPoint)
    | AmountOverflow
    | NonDefiniteKey
    | InvalidAddress
    | AmountMismatch(inputs: U64, outputs: U64, fee: U64)
    | UtxoMismatch(input: nat)

  /** Indices from here on are hardened and cannot be derived from a public key. */
  const HARDENED := 0x8000_0000

  /** Does the key turn into one key at the index? */
  predicate Definite(key: Key, index: nat) {
    match key.body.path
    case Ranged => index < HARDENED
    case Fixed => true
    case Indefinite => false
  }

  predicate DefiniteAt(d: Descriptor, index: nat) {
    forall i :: 0 <= i < |d.keys| ==> Definite(d.keys[i], index)
  }

  /** The key at an index: without a wildcard it is the same at every one. */
  function ChildOf(child: Derivation, key: Key, index: nat): Point {
    child(key.body, if key.body.path.Fixed? then 0 else index)
  }

  function SourceFor(key: Key, index: nat): KeySource {
    KeySource(KeystoreFingerprint(key), if key.body.path.Ranged? then Some(index) else None)
  }

  /** The keys of the script at an index, one for each key of the descriptor. */
  function ChildKeys(child: Derivation, keys: seq<Key>, index: nat): (r: seq<Point>)
    ensures |r| == |keys| && forall i :: 0 <= i < |r| ==> r[i] == ChildOf(child, keys[i], index)
  {
    seq(|keys|, i requires 0 <= i < |keys| => ChildOf(child, keys[i], index))
  }

  function ScriptAt(child: Derivation, d: Descriptor, index: nat): MultisigScript {
    MultisigScript(d.threshold, multiset(ChildKeys(child, d.keys, index)))
  }

  /** The key sources at an index, entered key by key: a later key of the
      descriptor that derives the same point replaces the earlier one's entry. */
  function SourcesAt(child: Derivation, keys: seq<Key>, index: nat): map<Point, KeySource> {
    if keys == [] then map[]
    else
      var last := keys[|keys| - 1];
      SourcesAt(child, keys[..|keys| - 1], index)[ChildOf(child, last, index) := SourceFor(last, index)]
  }

  function FindFunding(funding: seq<FundingUtxo>, outpoint: OutPoint): Option<FundingUtxo> {
    if funding == [] then None
    else if funding[0].outpoint == outpoint then Some(funding[0])
    else FindFunding(funding[1..], outpoint)
  }

  // --- the ideal sums ---

  function IdealIn(inputs: seq<OutPoint>, funding: seq<FundingUtxo>): nat {
    if inputs == [] then 0
    else
      IdealIn(inputs[..|inputs| - 1], funding)
      + match FindFunding(funding, inputs[|inputs| - 1])
        case None => 0
        case Some(utxo) => utxo.txout.value
  }

  function IdealSum(outputs: seq<SpendOutput>): nat {
    if outputs == [] then 0 else IdealSum(outputs[..|outputs| - 1]) + outputs[|outputs| - 1].amount
  }

  function ChangeAmount(spend: SpendSpec): nat {
    match spend.change
    case None => 0
    case Some(change) => change.amount
  }

  /** Everything the spend pays for: destinations, change and fee. */
  function IdealOut(spend: SpendSpec): nat {
    spend.fee + IdealSum(spend.outputs) + ChangeAmount(spend)
  }

  // --- the three phases of the build, failing in the sources' order ---

  function GatherInputs(d: Descriptor, inputs: seq<OutPoint>, funding: seq<FundingUtxo>)
    : Result<(U64, seq<FundingUtxo>), BuildError>
  {
    if inputs == [] then Success((0, []))
    else match GatherInputs(d, inputs[..|inputs| - 1], funding)
      case Failure(e) => Failure(e)
      case Success((total, utxos)) =>
        match FindFunding(funding, inputs[|inputs| - 1])
        case None => Failure(MissingFunding(inputs[|inputs| - 1]))
        case Some(utxo) =>
          if total + utxo.txout.value >= U64_LIMIT then Failure(AmountOverflow)
          else if !DefiniteAt(d, utxo.index) then Failure(NonDefiniteKey)
          else Success((total + utxo.txout.value, utxos + [utxo]))
  }

  function GatherOutputs(fee: U64, outputs: seq<SpendOutput>, network: Network): Result<(U64, seq<TxOut>), BuildError> {
    if outputs == [] then Success((fee, []))
    else match GatherOutputs(fee, outputs[..|outputs| - 1], network)
      case Failure(e) => Failure(e)
      case Success((total, txouts)) =>
        var output := outputs[|outputs| - 1];
        if network !in output.address.networks then Failure(InvalidAddress)
        else if total + output.amount >= U64_LIMIT then Failure(AmountOverflow)
        else Success((total + output.amount, txouts + [TxOut(output.amount, output.address.script)]))
  }

  function InputFor(child: Derivation, d: Descriptor, utxo: FundingUtxo): InputMap {
    InputMap(map[], SourcesAt(child, d.keys, utxo.index), Some(ScriptAt(child, d, utxo.index)), Some(utxo.txout), 0)
  }

  predicate Pays(child: Derivation, d: Descriptor, utxo: FundingUtxo) {
    utxo.txout.script == P2wsh(ScriptAt(child, d, utxo.index))
  }

  function PlainOutput(): OutputMap { OutputMap(map[], None, 0) }

  function ChangeOutputMap(child: Derivation, d: Descriptor, index: nat): OutputMap {
    OutputMap(SourcesAt(child, d.keys, index), Some(ScriptAt(child, d, index)), 0)
  }

  /** The document for gathered inputs and outputs. */
  function Assemble(child: Derivation, spend: SpendSpec, d: Descriptor, utxos: seq<FundingUtxo>, txouts: seq<TxOut>)
    : Psbt
  {
    var changeOut := match spend.change
      case None => []
      case Some(change) => [TxOut(change.amount, P2wsh(ScriptAt(child, d, change.index)))];
    var changeMap := match spend.change
      case None => []
      case Some(change) => [ChangeOutputMap(child, d, change.index)];
    Psbt(Transaction(spend.inputs, txouts + changeOut, 0), Globals(0, 0, 0, 0),
         seq(|utxos|, i requires 0 <= i < |utxos| => InputFor(child, d, utxos[i])),
         seq(|txouts|, _ => PlainOutput()) + changeMap)
  }

  predicate AllPay(child: Derivation, d: Descriptor, utxos: seq<FundingUtxo>) {
    forall i :: 0 <= i < |utxos| ==> Pays(child, d, utxos[i])
  }

  function FirstUnpaid(child: Derivation, d: Descriptor, utxos: seq<FundingUtxo>): nat {
    if utxos == [] || !Pays(child, d, utxos[0]) then 0 else 1 + FirstUnpaid(child, d, utxos[1..])
  }

  predicate ChangeDefinite(spend: SpendSpec, d: Descriptor) {
    spend.change.Some? ==> DefiniteAt(d, spend.change.value.index)
  }

  function BuildUnsigned(child: Derivation, spend: SpendSpec, d: Descriptor, funding: seq<FundingUtxo>,
                         network: Network)
    : Result<Psbt, BuildError>
  {
    match GatherInputs(d, spend.inputs, funding)
    case Failure(e) => Failure(e)
    case Success((totalIn, utxos)) =>
      match GatherOutputs(spend.fee, spend.outputs, network)
      case Failure(e) => Failure(e)
      case Success((paid, txouts)) =>
        if !ChangeDefinite(spend, d) then Failure(NonDefiniteKey)
        else if paid + ChangeAmount(spend) >= U64_LIMIT then Failure(AmountOverflow)
        else
          var totalOut: U64 := paid + ChangeAmount(spend);
          if totalIn != totalOut then
            Failure(AmountMismatch(totalIn, if totalOut >= spend.fee then totalOut - spend.fee else 0, spend.fee))
          else if !AllPay(child, d, utxos) then Failure(UtxoMismatch(FirstUnpaid(child, d, utxos)))
          else Success(Assemble(child, spend, d, utxos, txouts))
  }

  // --- machine sums refine ideal sums ---

  ghost predicate Funded(d: Descriptor, inputs: seq<OutPoint>, funding: seq<FundingUtxo>) {
    forall i :: 0 <= i < |inputs| ==>
      FindFunding(funding, inputs[i]).Some? && DefiniteAt(d, FindFunding(funding, inputs[i]).value.index)
  }

  ghost predicate RightNetwork(outputs: seq<SpendOutput>, network: Network) {
    forall i :: 0 <= i < |outputs| ==> network in outputs[i].address.networks
  }

  lemma {:induction false} GatherInputsMeaning(d: Descriptor, inputs: seq<OutPoint>, funding: seq<FundingUtxo>)
    ensures GatherInputs(d, inputs, funding).Success? ==>
              && GatherInputs(d, inputs, funding).value.0 == IdealIn(inputs, funding)
              && Funded(d, inputs, funding)
              && |GatherInputs(d, inputs, funding).value.1| == |inputs|
              && forall i :: 0 <= i < |inputs| ==>
                   FindFunding(funding, inputs[i]) == Some(GatherInputs(d, inputs, funding).value.1[i])
    ensures Funded(d, inputs, funding) ==>
              if IdealIn(inputs, funding) < U64_LIMIT then GatherInputs(d, inputs, funding).Success?
              else GatherInputs(d, inputs, funding) == Failure(AmountOverflow)
  {
    if inputs != [] {
      var front := inputs[..|inputs| - 1];
      GatherInputsMeaning(d, front, funding);
      assert inputs == front + [inputs[|inputs| - 1]];
      if Funded(d, inputs, funding) {
        forall i | 0 <= i < |front|
          ensures FindFunding(funding, front[i]).Some? && DefiniteAt(d, FindFunding(funding, front[i]).value.index)
        {
          assert front[i] == inputs[i];
        }
      }
      if GatherInputs(d, inputs, funding).Success? {
        forall i | 0 <= i < |inputs|
          ensures FindFunding(funding, inputs[i]).Some? && DefiniteAt(d, FindFunding(funding, inputs[i]).value.index)
          ensures FindFunding(funding, inputs[i]) == Some(GatherInputs(d, inputs, funding).value.1[i])
        {
          if i < |front| { assert front[i] == inputs[i]; }
        }
      }
    }
  }

  lemma {:induction false} GatherOutputsMeaning(fee: U64, outputs: seq<SpendOutput>, network: Network)
    ensures GatherOutputs(fee, outputs, network).Success? ==>
              && GatherOutputs(fee, outputs, network).value.0 == fee + IdealSum(outputs)
              && RightNetwork(outputs, network)
              && |GatherOutputs(fee, outputs, network).value.1| == |outputs|
              && forall i :: 0 <= i < |outputs| ==>
                   GatherOutputs(fee, outputs, network).value.1[i]
                   == TxOut(outputs[i].amount, outputs[i].address.script)
    ensures RightNetwork(outputs, network) ==>
              if fee + IdealSum(outputs) < U64_LIMIT then GatherOutputs(fee, outputs, network).Success?
              else GatherOutputs(fee, outputs, network) == Failure(AmountOverflow)
  {
    if outputs != [] {
      var front := outputs[..|outputs| - 1];
      GatherOutputsMeaning(fee, front, network);
      assert outputs == front + [outputs[|outputs| - 1]];
      if RightNetwork(outputs, network) {
        forall i | 0 <= i < |front| ensures network in front[i].address.networks { assert front[i] == outputs[i]; }
      }
      if GatherOutputs(fee, outputs, network).Success? {
        forall i | 0 <= i < |outputs|
          ensures network in outputs[i].address.networks
          ensures GatherOutputs(fee, outputs, network).value.1[i] == TxOut(outputs[i].amount, outputs[i].address.script)
        {
          if i < |front| { assert front[i] == outputs[i]; }
        }
      }
    }
  }

  function OutputValue(outs: seq<TxOut>): nat {
    if outs == [] then 0 else OutputValue(outs[..|outs| - 1]) + outs[|outs| - 1].value
  }

  function UtxoValue(inputs: seq<InputMap>): nat {
    if inputs == [] then 0
    else UtxoValue(inputs[..|inputs| - 1])
         + match inputs[|inputs| - 1].witnessUtxo
           case None => 0
           case Some(txout) => txout.value
  }

  lemma {:induction false} OutputsSum(outputs: seq<SpendOutput>, txouts: seq<TxOut>)
    requires |txouts| == |outputs| && forall i :: 0 <= i < |outputs| ==> txouts[i].value == outputs[i].amount
    ensures OutputValue(txouts) == IdealSum(outputs)
  {
    if outputs != [] { OutputsSum(outputs[..|outputs| - 1], txouts[..|outputs| - 1]); }
  }

  lemma {:induction false} InputsSum(child: Derivation, d: Descriptor, inputs: seq<OutPoint>,
                                     funding: seq<FundingUtxo>, utxos: seq<FundingUtxo>, maps: seq<InputMap>)
    requires |inputs| == |utxos| == |maps|
    requires forall i :: 0 <= i < |inputs| ==> FindFunding(funding, inputs[i]) == Some(utxos[i])
    requires forall i :: 0 <= i < |inputs| ==> maps[i] == InputFor(child, d, utxos[i])
    ensures UtxoValue(maps) == IdealIn(inputs, funding)
  {
    if inputs != [] {
      var n := |inputs| - 1;
      InputsSum(child, d, inputs[..n], funding, utxos[..n], maps[..n]);
    }
  }

  /** Conservation: the value of the coins a built document spends is the value
      of its outputs plus the declared fee; the outputs are the proposal's, in
      order, with the change last, paid to the wallet itself. */
  lemma ValueConserved(child: Derivation, spend: SpendSpec, d: Descriptor, funding: seq<FundingUtxo>, network: Network)
    requires BuildUnsigned(child, spend, d, funding, network).Success?
    ensures var p := BuildUnsigned(child, spend, d, funding, network).value;
            && p.unsignedTx.inputs == spend.inputs
            && |p.inputs| == |spend.inputs|
            && UtxoValue(p.inputs) == OutputValue(p.unsignedTx.outputs) + spend.fee
            && UtxoValue(p.inputs) == IdealIn(spend.inputs, funding)
            && |p.unsignedTx.outputs| == |spend.outputs| + (if spend.change.Some? then 1 else 0)
            && (forall i :: 0 <= i < |spend.outputs| ==>
                  p.unsignedTx.outputs[i] == TxOut(spend.outputs[i].amount, spend.outputs[i].address.script)
                  && network in spend.outputs[i].address.networks)
            && (spend.change.Some? ==>
                  p.unsignedTx.outputs[|spend.outputs|]
                  == TxOut(spend.change.value.amount, P2wsh(ScriptAt(child, d, spend.change.value.index))))
  {
    GatherInputsMeaning(d, spend.inputs, funding);
    GatherOutputsMeaning(spend.fee, spend.outputs, network);
    var utxos := GatherInputs(d, spend.inputs, funding).value.1;
    var txouts := GatherOutputs(spend.fee, spend.outputs, network).value.1;
    var p := BuildUnsigned(child, spend, d, funding, network).value;
    InputsSum(child, d, spend.inputs, funding, utxos, p.inputs);
    OutputsSum(spend.outputs, txouts);
    if spend.change.Some? {
      var last := p.unsignedTx.outputs[|txouts|];
      assert p.unsignedTx.outputs[..|txouts|] == txouts && p.unsignedTx.outputs == txouts + [last];
    } else {
      assert p.unsignedTx.outputs == txouts;
    }
  }

  /** For a funded, derivable, right-network spend the 64-bit checks fail exactly
      when an ideal total does not fit, the balance check exactly when the ideal
      totals differ, and otherwise the coins must pay the wallet's scripts. */
  lemma ArithmeticIsExact(child: Derivation, spend: SpendSpec, d: Descriptor, funding: seq<FundingUtxo>,
                          network: Network)
    requires Funded(d, spend.inputs, funding) && RightNetwork(spend.outputs, network)
    requires ChangeDefinite(spend, d)
    ensures BuildUnsigned(child, spend, d, funding, network) == Failure(AmountOverflow) <==>
            IdealIn(spend.inputs, funding) >= U64_LIMIT || IdealOut(spend) >= U64_LIMIT
    ensures IdealIn(spend.inputs, funding) < U64_LIMIT && IdealOut(spend) < U64_LIMIT ==>
            (BuildUnsigned(child, spend, d, funding, network)
             == Failure(AmountMismatch(IdealIn(spend.inputs, funding), IdealOut(spend) - spend.fee, spend.fee))
             <==> IdealIn(spend.inputs, funding) != IdealOut(spend))
  {
    GatherInputsMeaning(d, spend.inputs, funding);
    GatherOutputsMeaning(spend.fee, spend.outputs, network);
  }

  // --- exactly which spends can be built ---

  /** The descriptor derives the change, and what the spend pays for fits 64 bits. */
  predicate Payable(spend: SpendSpec, d: Descriptor) {
    ChangeDefinite(spend, d) && IdealOut(spend) < U64_LIMIT
  }

  /** The descriptor derives nothing: one of its keys turns into one key nowhere. */
  predicate NeverDerives(d: Descriptor) {
    exists i :: 0 <= i < |d.keys| && d.keys[i].body.path.Indefinite?
  }

  predicate AllFixed(d: Descriptor) {
    forall i :: 0 <= i < |d.keys| ==> d.keys[i].body.path.Fixed?
  }

  /** No coins can make up for these. */
  predicate Unbuildable(spend: SpendSpec, d: Descriptor) {
    NeverDerives(d) || !Payable(spend, d)
  }

  ghost predicate CoinsInRange(spend: SpendSpec, d: Descriptor, funding: seq<FundingUtxo>) {
    Funded(d, spend.inputs, funding) && IdealIn(spend.inputs, funding) < U64_LIMIT
  }

  /** Every coin pays the script the descriptor has at the coin's index. */
  ghost predicate CoinsPay(child: Derivation, spend: SpendSpec, d: Descriptor, funding: seq<FundingUtxo>) {
    forall i :: 0 <= i < |spend.inputs| ==>
      FindFunding(funding, spend.inputs[i]).Some? && Pays(child, d, FindFunding(funding, spend.inputs[i]).value)
  }

  lemma {:induction false} GatherInputsErrors(d: Descriptor, inputs: seq<OutPoint>, funding: seq<FundingUtxo>)
    ensures GatherInputs(d, inputs, funding).Failure? ==>
              && !GatherInputs(d, inputs, funding).error.InvalidAddress?
              && !GatherInputs(d, inputs, funding).error.AmountMismatch?
  {
    if inputs != [] { GatherInputsErrors(d, inputs[..|inputs| - 1], funding); }
  }

  /** For right-network spends: what the build answers, exactly. */
  lemma BuildOutcome(child: Derivation, spend: SpendSpec, d: Descriptor, funding: seq<FundingUtxo>, network: Network)
    requires RightNetwork(spend.outputs, network)
    ensures var r := BuildUnsigned(child, spend, d, funding, network);
            var balanced := IdealIn(spend.inputs, funding) == IdealOut(spend);
            var ready := CoinsInRange(spend, d, funding) && Payable(spend, d);
            && (r.Success? <==> ready && balanced && CoinsPay(child, spend, d, funding))
            && (r.Failure? && r.error.AmountMismatch? <==> ready && !balanced)
            && (r.Failure? ==> !r.error.InvalidAddress?)
  {
    GatherInputsMeaning(d, spend.inputs, funding);
    GatherOutputsMeaning(spend.fee, spend.outputs, network);
    GatherInputsErrors(d, spend.inputs, funding);
    hide GatherInputs, GatherOutputs, AllPay, CoinsPay, DefiniteAt;
    if GatherInputs(d, spend.inputs, funding).Success? {
      AllPayIff(child, spend, d, funding, GatherInputs(d, spend.inputs, funding).value.1);
    }
  }

  lemma AllPayIff(child: Derivation, spend: SpendSpec, d: Descriptor, funding: seq<FundingUtxo>,
                  utxos: seq<FundingUtxo>)
    requires |utxos| == |spend.inputs|
    requires forall i :: 0 <= i < |utxos| ==> FindFunding(funding, spend.inputs[i]) == Some(utxos[i])
    ensures AllPay(child, d, utxos) <==> CoinsPay(child, spend, d, funding)
  {
    if CoinsPay(child, spend, d, funding) {
      forall i | 0 <= i < |utxos| ensures Pays(child, d, utxos[i]) {
        assert FindFunding(funding, spend.inputs[i]) == Some(utxos[i]);
      }
    }
    if AllPay(child, d, utxos) {
      forall i | 0 <= i < |spend.inputs|
        ensures FindFunding(funding, spend.inputs[i]).Some?
        ensures Pays(child, d, FindFunding(funding, spend.inputs[i]).value)
      {
        assert Pays(child, d, utxos[i]);
      }
    }
  }

  /** Coins of the wallet that are worth `total` together. */
  function CoinsWorth(child: Derivation, d: Descriptor, inputs: seq<OutPoint>, total: U64): (r: seq<FundingUtxo>)
    ensures |r| == |inputs|
  {
    seq(|inputs|, i requires 0 <= i < |inputs| =>
      FundingUtxo(inputs[i], TxOut(if i == 0 then total else 0, P2wsh(ScriptAt(child, d, 0))), 0))
  }

  lemma {:induction false} FoundAt(funding: seq<FundingUtxo>, i: nat)
    requires i < |funding| && forall j :: 0 <= j < i ==> funding[j].outpoint != funding[i].outpoint
    ensures FindFunding(funding, funding[i].outpoint) == Some(funding[i])
  {
    if i > 0 { FoundAt(funding[1..], i - 1); }
  }

  lemma {:induction false} CoinsAreWorth(child: Derivation, d: Descriptor, inputs: seq<OutPoint>, total: U64, n: nat)
    requires n <= |inputs| && Distinct(inputs)
    ensures IdealIn(inputs[..n], CoinsWorth(child, d, inputs, total)) == if n == 0 then 0 else total
  {
    if n > 0 {
      CoinsAreWorth(child, d, inputs, total, n - 1);
      assert inputs[..n][..n - 1] == inputs[..n - 1] && inputs[..n][n - 1] == inputs[n - 1];
      FoundAt(CoinsWorth(child, d, inputs, total), n - 1);
    }
  }

  /** Which indices a descriptor derives: none with an indefinite key, otherwise the
      unhardened ones, and all of them when no key has a wildcard. */
  lemma DefiniteIff(d: Descriptor, index: nat)
    ensures DefiniteAt(d, index) <==> !NeverDerives(d) && (index < HARDENED || AllFixed(d))
  {
    if !DefiniteAt(d, index) {
      var i :| 0 <= i < |d.keys| && !Definite(d.keys[i], index);
      assert !d.keys[i].body.path.Fixed?;
    }
    if DefiniteAt(d, index) {
      forall i | 0 <= i < |d.keys| ensures !d.keys[i].body.path.Indefinite? {
        assert Definite(d.keys[i], index);
      }
      if index >= HARDENED {
        forall i | 0 <= i < |d.keys| ensures d.keys[i].body.path.Fixed? { assert Definite(d.keys[i], index); }
      }
    }
  }

  lemma NeverFunded(d: Descriptor, inputs: seq<OutPoint>, funding: seq<FundingUtxo>)
    requires NeverDerives(d) && inputs != []
    ensures !Funded(d, inputs, funding)
  {
    var found := FindFunding(funding, inputs[0]);
    if found.Some? { DefiniteIff(d, found.value.index); }
  }

  /** Any other spend of distinct coins can be built, on suitable coins. */
  lemma SuitableCoins(child: Derivation, spend: SpendSpec, d: Descriptor, network: Network)
      returns (funding: seq<FundingUtxo>)
    requires RightNetwork(spend.outputs, network) && spend.inputs != [] && Distinct(spend.inputs)
    requires !Unbuildable(spend, d)
    ensures BuildUnsigned(child, spend, d, funding, network).Success?
  {
    funding := CoinsWorth(child, d, spend.inputs, IdealOut(spend));
    DefiniteIff(d, 0);
    forall i | 0 <= i < |spend.inputs| ensures FindFunding(funding, spend.inputs[i]) == Some(funding[i]) {
      FoundAt(funding, i);
    }
    CoinsAreWorth(child, d, spend.inputs, IdealOut(spend), |spend.inputs|);
    assert spend.inputs[..|spend.inputs|] == spend.inputs;
    BuildOutcome(child, spend, d, funding, network);
  }

  /** A built document is a multisig spend of the descriptor: no signatures yet,
      each input's script keys are the wallet's keys at that coin's index, each
      attributed to its keystore. */
  lemma BuiltInput(child: Derivation, spend: SpendSpec, d: Descriptor, funding: seq<FundingUtxo>, network: Network,
                   i: nat)
    requires BuildUnsigned(child, spend, d, funding, network).Success? && i < |spend.inputs|
    ensures var p := BuildUnsigned(child, spend, d, funding, network).value;
            |p.inputs| == |spend.inputs|
            && exists utxo: FundingUtxo :: FindFunding(funding, spend.inputs[i]) == Some(utxo)
                                           && Pays(child, d, utxo) && p.inputs[i] == InputFor(child, d, utxo)
  {
    GatherInputsMeaning(d, spend.inputs, funding);
    var utxos := GatherInputs(d, spend.inputs, funding).value.1;
    assert Pays(child, d, utxos[i]);
  }

  // --- the method ---

  method SumInputs(d: Descriptor, inputs: seq<OutPoint>, funding: seq<FundingUtxo>)
      returns (r: Result<(U64, seq<FundingUtxo>), BuildError>)
    ensures r == GatherInputs(d, inputs, funding)
  {
    var total: U64 := 0;
    var utxos: seq<FundingUtxo> := [];
    var i := 0;
    while i < |inputs|
      invariant 0 <= i <= |inputs|
      invariant GatherInputs(d, inputs[..i], funding) == Success((total, utxos))
    {
      assert inputs[..i + 1][..i] == inputs[..i];
      var found := FindFunding(funding, inputs[i]);
      if found.None? {
        InputFailureSticks(d, inputs, funding, i + 1);
        return Failure(MissingFunding(inputs[i]));
      }
      var utxo := found.value;
      if total + utxo.txout.value >= U64_LIMIT {
        InputFailureSticks(d, inputs, funding, i + 1);
        return Failure(AmountOverflow);
      }
      total := total + utxo.txout.value;
      if !DefiniteAt(d, utxo.index) {
        InputFailureSticks(d, inputs, funding, i + 1);
        return Failure(NonDefiniteKey);
      }
      utxos := utxos + [utxo];
      i := i + 1;
    }
    assert inputs[..i] == inputs;
    r := Success((total, utxos));
  }

  method SumOutputs(fee: U64, outputs: seq<SpendOutput>, network: Network)
      returns (r: Result<(U64, seq<TxOut>), BuildError>)
    ensures r == GatherOutputs(fee, outputs, network)
    ensures r.Success? ==> r.value.0 >= fee
  {
    var total: U64 := fee;
    var txouts: seq<TxOut> := [];
    var i := 0;
    while i < |outputs|
      invariant 0 <= i <= |outputs| && fee <= total
      invariant GatherOutputs(fee, outputs[..i], network) == Success((total, txouts))
    {
      assert outputs[..i + 1][..i] == outputs[..i];
      var output := outputs[i];
      if network !in output.address.networks {
        OutputFailureSticks(fee, outputs, network, i + 1);
        return Failure(InvalidAddress);
      }
      if total + output.amount >= U64_LIMIT {
        OutputFailureSticks(fee, outputs, network, i + 1);
        return Failure(AmountOverflow);
      }
      total := total + output.amount;
      txouts := txouts + [TxOut(output.amount, output.address.script)];
      i := i + 1;
    }
    assert outputs[..i] == outputs;
    r := Success((total, txouts));
  }

  method BuildUnsignedPsbt(child: Derivation, spend: SpendSpec, d: Descriptor, funding: seq<FundingUtxo>,
                           network: Network)
      returns (r: Result<Psbt, BuildError>)
    ensures r == BuildUnsigned(child, spend, d, funding, network)
  {
    var summedIn := SumInputs(d, spend.inputs, funding);
    if summedIn.Failure? { return Failure(summedIn.error); }
    var (totalIn, utxos) := summedIn.value;
    var summedOut := SumOutputs(spend.fee, spend.outputs, network);
    if summedOut.Failure? { return Failure(summedOut.error); }
    var (totalOut, txouts) := summedOut.value;
    if spend.change.Some? {
      if !DefiniteAt(d, spend.change.value.index) { return Failure(NonDefiniteKey); }
      if totalOut + spend.change.value.amount >= U64_LIMIT { return Failure(AmountOverflow); }
      totalOut := totalOut + spend.change.value.amount;
    }
    if totalIn != totalOut {
      // the subtraction cannot underflow: the running total started at the fee
      var outputs: U64 := totalOut - spend.fee;
      return Failure(AmountMismatch(totalIn, outputs, spend.fee));
    }
    r := FillInputs(child, spend, d, utxos, txouts);
  }

  /** The final loops: each input takes its witness data, checked against the coin. */
  method FillInputs(child: Derivation, spend: SpendSpec, d: Descriptor, utxos: seq<FundingUtxo>, txouts: seq<TxOut>)
      returns (r: Result<Psbt, BuildError>)
    ensures r == if AllPay(child, d, utxos) then Success(Assemble(child, spend, d, utxos, txouts))
                 else Failure(UtxoMismatch(FirstUnpaid(child, d, utxos)))
  {
    var p := Assemble(child, spend, d, utxos, txouts);
    var inputs: seq<InputMap> := [];
    var i := 0;
    while i < |utxos|
      invariant 0 <= i <= |utxos| == |p.inputs|
      invariant inputs == p.inputs[..i]
      invariant forall j :: 0 <= j < i ==> Pays(child, d, utxos[j])
    {
      if !Pays(child, d, utxos[i]) {
        FirstUnpaidIs(child, d, utxos, i);
        return Failure(UtxoMismatch(i));
      }
      inputs := inputs + [InputFor(child, d, utxos[i])];
      i := i + 1;
    }
    assert inputs == p.inputs;
    r := Success(p.(inputs := inputs));
  }

  lemma {:induction false} FirstUnpaidIs(child: Derivation, d: Descriptor, utxos: seq<FundingUtxo>, i: nat)
    requires i < |utxos| && !Pays(child, d, utxos[i]) && forall j :: 0 <= j < i ==> Pays(child, d, utxos[j])
    ensures FirstUnpaid(child, d, utxos) == i
  {
    if i > 0 { FirstUnpaidIs(child, d, utxos[1..], i - 1); }
  }

  lemma {:induction false} InputFailureSticks(d: Descriptor, inputs: seq<OutPoint>, funding: seq<FundingUtxo>, n: nat)
    requires n <= |inputs| && GatherInputs(d, inputs[..n], funding).Failure?
    ensures GatherInputs(d, inputs, funding) == GatherInputs(d, inputs[..n], funding)
    decreases |inputs|
  {
    if n == |inputs| {
      assert inputs[..n] == inputs;
    } else {
      var front := inputs[..|inputs| - 1];
      assert front[..n] == inputs[..n];
      InputFailureSticks(d, front, funding, n);
    }
  }

  lemma {:induction false} OutputFailureSticks(fee: U64, outputs: seq<SpendOutput>, network: Network, n: nat)
    requires n <= |outputs| && GatherOutputs(fee, outputs[..n], network).Failure?
    ensures GatherOutputs(fee, outputs, network) == GatherOutputs(fee, outputs[..n], network)
    decreases |outputs|
  {
    if n == |outputs| {
      assert outputs[..n] == outputs;
    } else {
      var front := outputs[..|outputs| - 1];
      assert front[..n] == outputs[..n];
      OutputFailureSticks(fee, front, network, n);
    }
  }
}
