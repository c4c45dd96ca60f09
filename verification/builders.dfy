/** Exactly which parameters each of the SDK's proof-input builders accepts. */
module Builders {
  import opened Ideal
  import opened Notes
  import opened ProofInputs
  import opened Order
  import opened SwapSdk
  import opened EscrowSdk

  /** The output pays `amount` of `asset` to `owner` and commits to nothing else. Asset id and published
      data are not looked at. */
  predicate PaysOut(output: OutputUtxo, owner: ShieldedAddress, asset: Address, amount: u64) {
    && output.ownerAddress == Some(owner) && output.asset.asset == asset && output.amount == amount
    && output.dataHash.None? && output.ringDataHash.None? && output.ringProgramId.None?
  }

  lemma CheckedPaysOut(output: OutputUtxo, asset: Address, amount: u64)
    ensures CheckOutputUtxo(output, asset, amount).Ok?
            <==> output.ownerAddress.Some? && PaysOut(output, output.ownerAddress.value, asset, amount)
    ensures CheckOutputUtxo(output, asset, amount).Ok? ==>
              output.ownerAddress == Some(CheckOutputUtxo(output, asset, amount).value)
  {
  }

  /** The payouts the SDK's order builds, asset id included. */
  lemma OrderPaysOut(o: OrderUtxo, recipient: ShieldedAddress, outputBlinding: Fe)
    ensures PaysOut(o.SourceOutput(recipient, outputBlinding), recipient, o.sourceMint.asset, o.sourceAmount)
    ensures PaysOut(o.DestinationOutput(recipient, outputBlinding), recipient, o.terms.destinationMint,
                    o.terms.destinationAmount)
    ensures o.SourceOutput(recipient, outputBlinding).asset.id == o.sourceMint.id
    ensures o.DestinationOutput(recipient, outputBlinding).asset.id == o.destinationAssetId
    ensures o.SourceOutput(recipient, outputBlinding).blinding == outputBlinding
    ensures o.DestinationOutput(recipient, outputBlinding).blinding == outputBlinding
    ensures o.SourceOutput(recipient, outputBlinding).utxoData == []
    ensures o.DestinationOutput(recipient, outputBlinding).utxoData == []
  {
  }

  /** make: the change, of any amount, is the maker's, in the source asset under its own id. */
  lemma MakeBuilds(p: MakeParams)
    ensures p.ToProofInputs().Ok?
            <==> && PaysOut(p.change, p.orderUtxo.terms.destination, p.orderUtxo.sourceMint.asset, p.change.amount)
                 && p.change.asset.id == p.orderUtxo.sourceMint.id
  {
    RepresentationsAgree(p.orderUtxo, p.orderUtxo.terms.destination.viewing, p.outputTree, 0);
  }

  /** The four notes both takes pay over: the taker's in the destination asset and amount, the whole source
      to the taker, what the terms ask for to the maker. */
  predicate Exchanges(p: TakeParams) {
    var o := p.orderUtxo;
    && p.takerIn.ownerAddress.Some?
    && PaysOut(p.takerIn, p.takerIn.ownerAddress.value, o.terms.destinationMint, o.terms.destinationAmount)
    && PaysOut(p.sourceOutput, p.takerIn.ownerAddress.value, o.sourceMint.asset, o.sourceAmount)
    && PaysOut(p.destinationOutput, o.terms.destination, o.terms.destinationMint, o.terms.destinationAmount)
  }

  lemma ExchangesChecked(p: TakeParams, takeMode: u64)
    ensures p.CheckOutputs(takeMode).Ok? <==> Exchanges(p) && p.orderUtxo.terms.takeMode == takeMode
  {
    var o := p.orderUtxo;
    CheckedPaysOut(p.takerIn, o.terms.destinationMint, o.terms.destinationAmount);
    CheckedPaysOut(p.sourceOutput, o.sourceMint.asset, o.sourceAmount);
    CheckedPaysOut(p.destinationOutput, o.terms.destinationMint, o.terms.destinationAmount);
  }

  /** The derived rail's blindings: all from the order's own nullifier and blinding. */
  predicate DerivedBlindings(p: TakeParams) {
    var nullifier := p.orderUtxo.SpentBy(p.inputTree);
    var tagged := Poseidon([Num(0x5357_5458), p.orderUtxo.blinding]);
    var seed := OutputBlindingSeed(nullifier, tagged);
    && p.privateTxBlinding == PrivateTxBlinding(nullifier, tagged)
    && p.sourceOutput.blinding == OutputBlinding(nullifier, seed, 0)
    && p.destinationOutput.blinding == OutputBlinding(nullifier, seed, 1)
  }

  lemma TakeInputsAlways(p: TakeParams)
    requires p.CheckOutputs(0).Ok? && DerivedBlindings(p)
    ensures p.ToTakeInputs().Ok?
  {
    CoreOfCheckedOutputs(p, 0);
    var core := CheckedCore(p, p.takerIn.ownerAddress.value);
    PublicInputOfEncodings(CoreTxHash(core), p.orderUtxo.terms.expiry, p.orderUtxo.SpentBy(p.inputTree));
    assert TakeInputs(core, p.orderUtxo.terms.expiry, p.orderUtxo.SpentBy(p.inputTree)).Ok?;
  }

  /** take: an order of mode 0, the exchange its terms describe, and the derived blindings. */
  lemma TakeBuilds(p: TakeParams)
    ensures p.ToTakeInputs().Ok? <==> p.orderUtxo.terms.takeMode == 0 && Exchanges(p) && DerivedBlindings(p)
  {
    ExchangesChecked(p, 0);
    if p.CheckOutputs(0).Ok? && DerivedBlindings(p) {
      TakeInputsAlways(p);
    }
  }

  /** take_verifiable_encryption: an order of mode 1 and the exchange; every blinding is free. */
  lemma VerifiableTakeBuilds(p: TakeParams)
    ensures p.ToVerifiableTakeInputs().Ok? <==> p.orderUtxo.terms.takeMode == 1 && Exchanges(p)
  {
    ExchangesChecked(p, 1);
    if p.CheckOutputs(1).Ok? {
      CoreOfCheckedOutputs(p, 1);
      var terms := p.orderUtxo.terms;
      PublicInputOfEncodings(CoreTxHash(CheckedCore(p, p.takerIn.ownerAddress.value)), terms.expiry,
                             BytesHash(DestinationCiphertext(p.orderUtxo.blinding, terms.destinationMint,
                                                             terms.destinationAmount, p.destinationOutput.blinding)));
    }
  }

  /** cancel: the whole source back to the maker. */
  lemma CancelBuilds(p: CancelParams)
    ensures p.ToProofInputs().Ok?
            <==> PaysOut(p.sourceOutput, p.orderUtxo.terms.destination, p.orderUtxo.sourceMint.asset,
                         p.orderUtxo.sourceAmount)
  {
    var o, inputTree, outputTree := p.orderUtxo, p.inputTree, p.outputTree;
    CheckedPaysOut(p.sourceOutput, o.sourceMint.asset, o.sourceAmount);
    RepresentationsAgree(o, o.terms.destination.viewing, inputTree, 0);
    if PaysOut(p.sourceOutput, o.terms.destination, o.sourceMint.asset, o.sourceAmount) {
      var source := ToProofUtxo(p.sourceOutput, outputTree).value;
      PublicInputOfEncodings(PrivateTxHash([o.Leaf(inputTree)], [Commitment(source)], p.privateTxBlinding),
                             o.terms.expiry, OwnerField(o.terms.destination.signing));
    }
  }

  /** escrow: the change, of any amount, is the creator's, in the escrowed asset under its own id. */
  lemma EscrowBuilds(p: EscrowParams)
    ensures p.ToProofInputs().Ok?
            <==> && PaysOut(p.change, p.escrowUtxo.terms.creator, p.escrowUtxo.asset.asset, p.change.amount)
                 && p.change.asset.id == p.escrowUtxo.asset.id
  {
    EscrowRepresentationsAgree(p.escrowUtxo, p.outputTree, 0);
  }

  /** withdraw: the whole amount back to the creator. */
  lemma WithdrawBuilds(p: WithdrawParams)
    ensures p.ToProofInputs().Ok?
            <==> PaysOut(p.sourceOutput, p.escrowUtxo.terms.creator, p.escrowUtxo.asset.asset, p.escrowUtxo.amount)
  {
    var e, inputTree, outputTree := p.escrowUtxo, p.inputTree, p.outputTree;
    CheckedPaysOut(p.sourceOutput, e.asset.asset, e.amount);
    EscrowRepresentationsAgree(e, inputTree, 0);
    if PaysOut(p.sourceOutput, e.terms.creator, e.asset.asset, e.amount) {
      var source := ToProofUtxo(p.sourceOutput, outputTree).value;
      PublicInputOfEncodings(PrivateTxHash([e.Leaf(inputTree)], [Commitment(source)], p.privateTxBlinding),
                             e.terms.unlockTimestamp, OwnerField(e.terms.creator.signing));
    }
  }
}
