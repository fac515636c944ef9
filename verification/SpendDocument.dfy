/** The unsigned PSBT as a signing device reads it: what it says of every coin and
    every output, spelled out from the spend, the descriptor and the coins. */
module SpendDocument {
  import opened Foundation
  import opened Documents
  import opened Spending
  import opened Keystores

  /** The point a key has at an index, if it has one there. */
  ghost predicate PointAt(child: Derivation, key: Key, index: nat, point: Point) {
    && (key.body.path.Ranged? ==> index < 0x8000_0000 && point == child(key.body, index))
    && (key.body.path.Fixed? ==> point == child(key.body, 0))
    && !key.body.path.Indefinite?
  }

  /** The script asks for the descriptor's threshold of its keys' points at the
      index, one place for each key. */
  ghost predicate ScriptOf(child: Derivation, d: Descriptor, index: nat, script: MultisigScript) {
    && script.threshold == d.threshold
    && exists points: seq<Point> ::
         && |points| == |d.keys| && script.keys == multiset(points)
         && forall a :: 0 <= a < |d.keys| ==> PointAt(child, d.keys[a], index, points[a])
  }

  /** The entry is that of the key: its origin's fingerprint, or its own, and the
      index where the key has a wildcard. */
  ghost predicate EntryOf(key: Key, index: nat, entry: KeySource) {
    && entry.fingerprint == (if key.origin.Some? then key.origin.value else key.body.fingerprint)
    && (key.body.path.Ranged? ==> entry.step == Some(index))
    && (key.body.path.Fixed? ==> entry.step == None)
  }

  /** Exactly the script's keys have an entry, and it is that of the last key of the
      descriptor with that point. */
  ghost predicate Attributes(child: Derivation, d: Descriptor, index: nat, script: MultisigScript,
                             entries: map<Point, KeySource>)
  {
    && (forall point :: point in entries <==> point in script.keys)
    && forall point :: point in entries ==>
         exists a :: 0 <= a < |d.keys| && PointAt(child, d.keys[a], index, point)
                     && EntryOf(d.keys[a], index, entries[point])
                     && forall b :: a < b < |d.keys| ==> !PointAt(child, d.keys[b], index, point)
  }

  /** The first coin of the funding data with the outpoint. */
  ghost predicate FoundFirst(funding: seq<FundingUtxo>, outpoint: OutPoint, utxo: FundingUtxo) {
    exists j :: 0 <= j < |funding| && funding[j] == utxo && utxo.outpoint == outpoint
                && forall k :: 0 <= k < j ==> funding[k].outpoint != outpoint
  }

  /** An input map without signatures shows the whole coin and the script it pays. */
  ghost predicate ShowsCoin(child: Derivation, d: Descriptor, utxo: FundingUtxo, m: InputMap) {
    && m.partialSigs == map[] && m.witnessUtxo == Some(utxo.txout)
    && m.witnessScript.Some? && utxo.txout.script == P2wsh(m.witnessScript.value)
    && ScriptOf(child, d, utxo.index, m.witnessScript.value)
    && Attributes(child, d, utxo.index, m.witnessScript.value, m.derivation)
  }

  /** The map shows the first coin of the funding data with the outpoint. */
  ghost predicate ShowsFunding(child: Derivation, d: Descriptor, funding: seq<FundingUtxo>, outpoint: OutPoint,
                               m: InputMap)
  {
    exists utxo :: FoundFirst(funding, outpoint, utxo) && ShowsCoin(child, d, utxo, m)
  }

  /** The change goes to the wallet's script at the change index, and its map says so. */
  ghost predicate ShowsChange(child: Derivation, d: Descriptor, change: ChangeOutput, out: TxOut, m: OutputMap) {
    && m.witnessScript.Some? && out == TxOut(change.amount, P2wsh(m.witnessScript.value))
    && ScriptOf(child, d, change.index, m.witnessScript.value)
    && Attributes(child, d, change.index, m.witnessScript.value, m.derivation)
  }

  /** A destination: as proposed, with nothing of the wallet in its map. */
  ghost predicate ShowsDestination(output: SpendOutput, out: TxOut, m: OutputMap) {
    out == TxOut(output.amount, output.address.script) && m.witnessScript == None && m.derivation == map[]
  }

  /** The document spends the coins of the spend in order, pays its destinations in
      order, and then the change. */
  ghost predicate DocumentOf(child: Derivation, spend: SpendSpec, d: Descriptor, funding: seq<FundingUtxo>, p: Psbt) {
    && p.unsignedTx.inputs == spend.inputs && |p.inputs| == |spend.inputs|
    && |p.outputs| == |p.unsignedTx.outputs| == |spend.outputs| + (if spend.change.Some? then 1 else 0)
    && (forall i :: 0 <= i < |p.inputs| ==> ShowsFunding(child, d, funding, spend.inputs[i], p.inputs[i]))
    && (forall i :: 0 <= i < |spend.outputs| ==>
          ShowsDestination(spend.outputs[i], p.unsignedTx.outputs[i], p.outputs[i]))
    && (spend.change.Some? ==>
          ShowsChange(child, d, spend.change.value, p.unsignedTx.outputs[|spend.outputs|], p.outputs[|spend.outputs|]))
  }

  /** The document of the spend, for some coins. */
  ghost predicate IsDocument(child: Derivation, spend: SpendSpec, d: Descriptor, p: Psbt) {
    exists funding :: DocumentOf(child, spend, d, funding, p)
  }

  // --- the build makes that document ---

  lemma PointMeaning(child: Derivation, key: Key, index: nat, point: Point)
    requires Definite(key, index)
    ensures PointAt(child, key, index, point) <==> point == ChildOf(child, key, index)
  {
  }

  lemma ScriptMeaning(child: Derivation, d: Descriptor, index: nat)
    requires DefiniteAt(d, index)
    ensures ScriptOf(child, d, index, ScriptAt(child, d, index))
  {
    var points := ChildKeys(child, d.keys, index);
    forall a | 0 <= a < |d.keys| ensures PointAt(child, d.keys[a], index, points[a]) {
      assert Definite(d.keys[a], index);
    }
  }

  lemma SourcesMeaning(child: Derivation, d: Descriptor, index: nat)
    requires DefiniteAt(d, index)
    ensures Attributes(child, d, index, ScriptAt(child, d, index), SourcesAt(child, d.keys, index))
  {
    var entries, script := SourcesAt(child, d.keys, index), ScriptAt(child, d, index);
    forall point | point in entries
      ensures point in script.keys
      ensures exists a :: 0 <= a < |d.keys| && PointAt(child, d.keys[a], index, point)
                          && EntryOf(d.keys[a], index, entries[point])
                          && forall b :: a < b < |d.keys| ==> !PointAt(child, d.keys[b], index, point)
    {
      var a := SourceOf(child, d.keys, index, point);
      assert Definite(d.keys[a], index);
      assert ChildKeys(child, d.keys, index)[a] == point;
      forall b | a < b < |d.keys| ensures !PointAt(child, d.keys[b], index, point) {
        PointMeaning(child, d.keys[b], index, point);
      }
    }
    forall point | point in script.keys ensures point in entries {
      var a :| 0 <= a < |d.keys| && ChildKeys(child, d.keys, index)[a] == point;
      SourceAt(child, d.keys, index, a);
    }
  }

  lemma {:induction false} FindMeaning(funding: seq<FundingUtxo>, outpoint: OutPoint)
    ensures match FindFunding(funding, outpoint)
            case Some(utxo) => FoundFirst(funding, outpoint, utxo)
            case None => forall j :: 0 <= j < |funding| ==> funding[j].outpoint != outpoint
  {
    if funding != [] && funding[0].outpoint != outpoint {
      FindMeaning(funding[1..], outpoint);
      var found := FindFunding(funding[1..], outpoint);
      if found.Some? {
        var j :| 0 <= j < |funding[1..]| && funding[1..][j] == found.value && found.value.outpoint == outpoint
                 && forall k :: 0 <= k < j ==> funding[1..][k].outpoint != outpoint;
        assert funding[j + 1] == found.value;
        forall k | 0 <= k < j + 1 ensures funding[k].outpoint != outpoint {
          if k > 0 { assert funding[k] == funding[1..][k - 1]; }
        }
      } else {
        forall j | 0 <= j < |funding| ensures funding[j].outpoint != outpoint {
          if j > 0 { assert funding[j] == funding[1..][j - 1]; }
        }
      }
    }
  }

  lemma CoinShown(child: Derivation, d: Descriptor, utxo: FundingUtxo)
    requires DefiniteAt(d, utxo.index) && Pays(child, d, utxo)
    ensures ShowsCoin(child, d, utxo, InputFor(child, d, utxo))
  {
    ScriptMeaning(child, d, utxo.index);
    SourcesMeaning(child, d, utxo.index);
  }

  lemma ChangeShown(child: Derivation, d: Descriptor, change: ChangeOutput)
    requires DefiniteAt(d, change.index)
    ensures ShowsChange(child, d, change, TxOut(change.amount, P2wsh(ScriptAt(child, d, change.index))),
                        ChangeOutputMap(child, d, change.index))
  {
    ScriptMeaning(child, d, change.index);
    SourcesMeaning(child, d, change.index);
  }

  lemma InputsShown(child: Derivation, spend: SpendSpec, d: Descriptor, funding: seq<FundingUtxo>, network: Network,
                    i: nat)
    requires BuildUnsigned(child, spend, d, funding, network).Success? && i < |spend.inputs|
    ensures var p := BuildUnsigned(child, spend, d, funding, network).value;
            |p.inputs| == |spend.inputs| && ShowsFunding(child, d, funding, spend.inputs[i], p.inputs[i])
  {
    BuiltInput(child, spend, d, funding, network, i);
    GatherInputsMeaning(d, spend.inputs, funding);
    var p := BuildUnsigned(child, spend, d, funding, network).value;
    var utxo :| FindFunding(funding, spend.inputs[i]) == Some(utxo)
                && Pays(child, d, utxo) && p.inputs[i] == InputFor(child, d, utxo);
    FindMeaning(funding, spend.inputs[i]);
    CoinShown(child, d, utxo);
  }

  lemma OutputsShown(child: Derivation, spend: SpendSpec, d: Descriptor, funding: seq<FundingUtxo>, network: Network)
    requires BuildUnsigned(child, spend, d, funding, network).Success?
    ensures var p := BuildUnsigned(child, spend, d, funding, network).value;
            && |p.outputs| == |p.unsignedTx.outputs| == |spend.outputs| + (if spend.change.Some? then 1 else 0)
            && (forall i :: 0 <= i < |spend.outputs| ==>
                  ShowsDestination(spend.outputs[i], p.unsignedTx.outputs[i], p.outputs[i]))
            && (spend.change.Some? ==>
                  ShowsChange(child, d, spend.change.value, p.unsignedTx.outputs[|spend.outputs|],
                              p.outputs[|spend.outputs|]))
  {
    hide SourcesAt, ScriptAt, DefiniteAt, AllPay, GatherInputs, ScriptOf, Attributes, IdealIn, IdealSum;
    GatherOutputsMeaning(spend.fee, spend.outputs, network);
    if spend.change.Some? { ChangeShown(child, d, spend.change.value); }
  }

  /** What is built is the document of the spend. */
  lemma BuildsDocument(child: Derivation, spend: SpendSpec, d: Descriptor, funding: seq<FundingUtxo>, network: Network)
    requires BuildUnsigned(child, spend, d, funding, network).Success?
    ensures DocumentOf(child, spend, d, funding, BuildUnsigned(child, spend, d, funding, network).value)
  {
    hide ShowsFunding, ShowsDestination, ShowsChange, BuildUnsigned;
    var p := BuildUnsigned(child, spend, d, funding, network).value;
    ValueConserved(child, spend, d, funding, network);
    OutputsShown(child, spend, d, funding, network);
    forall i | 0 <= i < |spend.inputs|
      ensures ShowsFunding(child, d, funding, spend.inputs[i], p.inputs[i])
    {
      InputsShown(child, spend, d, funding, network, i);
    }
  }

  // --- what a refused build names ---

  /** The first coin in the way, all before it being known, derivable and in range:
      it has no funding data, makes the sum too large, or is not derivable. */
  ghost predicate StopsAtCoin(spend: SpendSpec, d: Descriptor, funding: seq<FundingUtxo>, i: nat, e: BuildError) {
    && i < |spend.inputs|
    && Funded(d, spend.inputs[..i], funding) && IdealIn(spend.inputs[..i], funding) < 0x1_0000_0000_0000_0000
    && (e.MissingFunding? || e.AmountOverflow? || e.NonDefiniteKey?)
    && (e.MissingFunding? ==> e.outpoint == spend.inputs[i]
                              && forall j :: 0 <= j < |funding| ==> funding[j].outpoint != spend.inputs[i])
    && (e.AmountOverflow? ==> IdealIn(spend.inputs[..i + 1], funding) >= 0x1_0000_0000_0000_0000)
    && (e.NonDefiniteKey? ==>
          && IdealIn(spend.inputs[..i + 1], funding) < 0x1_0000_0000_0000_0000
          && exists utxo :: FoundFirst(funding, spend.inputs[i], utxo) && !DefiniteAt(d, utxo.index))
  }

  /** The first destination in the way: of another network, or too much in all. */
  ghost predicate StopsAtOutput(spend: SpendSpec, network: Network, i: nat, e: BuildError) {
    && i < |spend.outputs|
    && RightNetwork(spend.outputs[..i], network) && spend.fee + IdealSum(spend.outputs[..i]) < 0x1_0000_0000_0000_0000
    && (e.InvalidAddress? || e.AmountOverflow?)
    && (e.InvalidAddress? <==> network !in spend.outputs[i].address.networks)
    && (e.AmountOverflow? ==> spend.fee + IdealSum(spend.outputs[..i + 1]) >= 0x1_0000_0000_0000_0000)
  }

  /** The change is not derivable, or too much on top of the rest. */
  ghost predicate StopsAtChange(spend: SpendSpec, d: Descriptor, e: BuildError) {
    && spend.change.Some? && (e.NonDefiniteKey? || e.AmountOverflow?)
    && (e.NonDefiniteKey? <==> !DefiniteAt(d, spend.change.value.index))
    && (e.AmountOverflow? ==> IdealOut(spend) >= 0x1_0000_0000_0000_0000)
  }

  /** The totals differ, and are reported as they are. */
  ghost predicate StopsAtBalance(spend: SpendSpec, funding: seq<FundingUtxo>, e: BuildError) {
    && IdealIn(spend.inputs, funding) != IdealOut(spend)
    && e.AmountMismatch? && e.inputs == IdealIn(spend.inputs, funding)
    && e.outputs == IdealSum(spend.outputs) + ChangeAmount(spend) && e.fee == spend.fee
  }

  /** The first coin that pays another script than the wallet's at its index. */
  ghost predicate StopsAtScript(child: Derivation, spend: SpendSpec, d: Descriptor, funding: seq<FundingUtxo>,
                                e: BuildError)
  {
    && e.UtxoMismatch? && e.input < |spend.inputs|
    && (exists utxo :: FoundFirst(funding, spend.inputs[e.input], utxo) && !Pays(child, d, utxo))
    && forall j :: 0 <= j < e.input ==>
         exists utxo :: FoundFirst(funding, spend.inputs[j], utxo) && Pays(child, d, utxo)
  }

  /** The first coin the loop over the coins cannot take. */
  lemma {:induction false} GatherRefuses(spend: SpendSpec, d: Descriptor, n: nat, funding: seq<FundingUtxo>)
      returns (i: nat)
    requires n <= |spend.inputs| && GatherInputs(d, spend.inputs[..n], funding).Failure?
    ensures StopsAtCoin(spend, d, funding, i, GatherInputs(d, spend.inputs[..n], funding).error)
  {
    assert spend.inputs[..n][..n - 1] == spend.inputs[..n - 1];
    if GatherInputs(d, spend.inputs[..n - 1], funding).Failure? {
      i := GatherRefuses(spend, d, n - 1, funding);
    } else {
      i := n - 1;
      FindMeaning(funding, spend.inputs[i]);
      GatherInputsMeaning(d, spend.inputs[..i], funding);
    }
  }

  /** The first destination the loop over the destinations cannot take. */
  lemma {:induction false} OutputsRefuse(spend: SpendSpec, n: nat, network: Network) returns (i: nat)
    requires n <= |spend.outputs| && GatherOutputs(spend.fee, spend.outputs[..n], network).Failure?
    ensures StopsAtOutput(spend, network, i, GatherOutputs(spend.fee, spend.outputs[..n], network).error)
  {
    assert spend.outputs[..n][..n - 1] == spend.outputs[..n - 1];
    if GatherOutputs(spend.fee, spend.outputs[..n - 1], network).Failure? {
      i := OutputsRefuse(spend, n - 1, network);
    } else {
      i := n - 1;
      GatherOutputsMeaning(spend.fee, spend.outputs[..i], network);
    }
  }

  /** Of some coins that pay another script, the one named is the first. */
  lemma {:induction false} UnpaidMeaning(child: Derivation, d: Descriptor, utxos: seq<FundingUtxo>)
    requires !AllPay(child, d, utxos)
    ensures var i := FirstUnpaid(child, d, utxos);
            i < |utxos| && !Pays(child, d, utxos[i]) && forall j :: 0 <= j < i ==> Pays(child, d, utxos[j])
  {
    hide Pays;
    var k :| 0 <= k < |utxos| && !Pays(child, d, utxos[k]);
    if Pays(child, d, utxos[0]) {
      assert utxos[1..][k - 1] == utxos[k];
      UnpaidMeaning(child, d, utxos[1..]);
      forall j | 0 <= j < FirstUnpaid(child, d, utxos) ensures Pays(child, d, utxos[j]) {
        if j > 0 { assert Pays(child, d, utxos[1..][j - 1]); }
      }
    }
  }

  lemma UnpaidCoin(child: Derivation, spend: SpendSpec, d: Descriptor, funding: seq<FundingUtxo>,
                   utxos: seq<FundingUtxo>)
    requires |utxos| == |spend.inputs| && !AllPay(child, d, utxos)
    requires forall i :: 0 <= i < |utxos| ==> FindFunding(funding, spend.inputs[i]) == Some(utxos[i])
    ensures StopsAtScript(child, spend, d, funding, UtxoMismatch(FirstUnpaid(child, d, utxos)))
  {
    hide Pays, FoundFirst, FindFunding;
    UnpaidMeaning(child, d, utxos);
    var i := FirstUnpaid(child, d, utxos);
    FindMeaning(funding, spend.inputs[i]);
    forall j | 0 <= j < i
      ensures exists utxo :: FoundFirst(funding, spend.inputs[j], utxo) && Pays(child, d, utxo)
    {
      FindMeaning(funding, spend.inputs[j]);
    }
  }

  /** A refused build names the first thing in the way: coins before destinations,
      then the change, the balance, and the coins' scripts. */
  lemma BuildRefuses(child: Derivation, spend: SpendSpec, d: Descriptor, funding: seq<FundingUtxo>, network: Network)
    requires BuildUnsigned(child, spend, d, funding, network).Failure?
    ensures var e := BuildUnsigned(child, spend, d, funding, network).error;
            if !CoinsInRange(spend, d, funding) then exists i: nat :: StopsAtCoin(spend, d, funding, i, e)
            else if !RightNetwork(spend.outputs, network)
                    || spend.fee + IdealSum(spend.outputs) >= 0x1_0000_0000_0000_0000 then
              exists i: nat :: StopsAtOutput(spend, network, i, e)
            else if !Payable(spend, d) then StopsAtChange(spend, d, e)
            else StopsAtBalance(spend, funding, e)
                 || (IdealIn(spend.inputs, funding) == IdealOut(spend) && StopsAtScript(child, spend, d, funding, e))
  {
    var gathered, paid := GatherInputs(d, spend.inputs, funding), GatherOutputs(spend.fee, spend.outputs, network);
    assert spend.inputs[..|spend.inputs|] == spend.inputs && spend.outputs[..|spend.outputs|] == spend.outputs;
    GatherInputsMeaning(d, spend.inputs, funding);
    GatherOutputsMeaning(spend.fee, spend.outputs, network);
    hide GatherInputs, GatherOutputs, StopsAtCoin, StopsAtOutput, StopsAtScript, DefiniteAt, Funded, RightNetwork,
         AllPay, FirstUnpaid, IdealIn, IdealSum;
    if gathered.Failure? {
      var i := GatherRefuses(spend, d, |spend.inputs|, funding);
    } else if paid.Failure? {
      var i := OutputsRefuse(spend, |spend.outputs|, network);
    } else if !AllPay(child, d, gathered.value.1) {
      UnpaidCoin(child, spend, d, funding, gathered.value.1);
    }
  }
}
