/** The SDK's proof-input builders: the checks each makes, the witness it builds, and exactly
    when the circuit accepts that witness. */
module SwapSdk {
  import opened Ideal
  import opened Notes
  import opened ProofInputs
  import opened Order
  import opened Cipher
  import Circuit = OrderTermsCircuit
  import MakeCircuit
  import TakeCircuit
  import VerifiableTakeCircuit
  import CancelCircuit
  import SwapProgram

  /* make */

  // SppTxHashes is the last three fields.
  datatype MakeParams = MakeParams(
    orderUtxo: OrderUtxo, change: OutputUtxo, sourceInputHash: Fe, privateTxBlinding: Fe, outputTree: u16)
  {
    function ToProofInputs(): Result<Inputs<MakeCircuit.Witness>, SdkError> {
      var terms := orderUtxo.terms;
      if change.ownerAddress != Some(terms.destination) then
        Err(SdkError("change owner does not match order destination"))
      else if change.asset != orderUtxo.sourceMint then Err(SdkError("change asset does not match order source mint"))
      else if change.dataHash.Some? || change.ringDataHash.Some? || change.ringProgramId.Some? then
        Err(SdkError("change output must not carry data or ring commitments"))
      else
        match (ToProofUtxo(orderUtxo.ToOutputUtxo(terms.destination.viewing), outputTree),
               ToProofUtxo(change, outputTree))
        case (Ok(order), Ok(changeUtxo)) =>
          var privateTxHash := PrivateTxHash([sourceInputHash, ZERO], [Commitment(changeUtxo), Commitment(order)],
                                             privateTxBlinding);
          Ok(Inputs(privateTxHash,
                    MakeCircuit.Witness(ToProofInput(terms).Witness(), order, changeUtxo, sourceInputHash,
                                        privateTxBlinding)))
        case (Err(e), _) => Err(e)
        case (_, Err(e)) => Err(e)
    }
  }

  /** A make witness is provable exactly when the three checks the builder omits hold; a change
      of amount zero is never one of them and its commitment is folded like any other. */
  lemma MakeComplete(p: MakeParams)
    requires p.ToProofInputs().Ok?
    ensures var r := p.ToProofInputs().value;
            && r.proof.orderUtxo == p.orderUtxo.Note(p.outputTree)
            && r.proof.change
               == PlainNote(p.orderUtxo.terms.destination.OwnerHash(), Num(p.outputTree),
                            AssetField(p.orderUtxo.sourceMint.asset), Num(p.change.amount), p.change.blinding)
            && r.publicInputHash
               == PrivateTxHash([p.sourceInputHash, ZERO], [Commitment(r.proof.change), Commitment(r.proof.orderUtxo)],
                                p.privateTxBlinding)
            && (MakeCircuit.Define(r.publicInputHash, r.proof) <==>
                  && p.orderUtxo.sourceAmount != 0
                  && p.orderUtxo.terms.destinationAmount != 0
                  && p.orderUtxo.terms.takeMode <= 1)
  {
    RepresentationsAgree(p.orderUtxo, p.orderUtxo.terms.destination.viewing, p.outputTree, 0);
  }

  /** The zero-amount change the document would leave out is one of the two hashed outputs. */
  lemma ChangeIsAlwaysFolded(p: MakeParams)
    requires p.ToProofInputs().Ok?
    ensures var r := p.ToProofInputs().value;
            r.publicInputHash.outputs == [Commitment(r.proof.change), Commitment(r.proof.orderUtxo)]
  {
    MakeComplete(p);
    var w := p.ToProofInputs().value.proof;
    NonZeroPair(Commitment(w.change), Commitment(w.orderUtxo));
  }

  /* take and take_verifiable_encryption */

  datatype TakeParams = TakeParams(
    orderUtxo: OrderUtxo, takerIn: OutputUtxo, sourceOutput: OutputUtxo, destinationOutput: OutputUtxo,
    privateTxBlinding: Fe, inputTree: u16, outputTree: u16)
  {
    /** The checks both takes share: the taker's address, if all pass. */
    function CheckOutputs(takeMode: u64): Result<ShieldedAddress, SdkError> {
      var terms := orderUtxo.terms;
      match CheckOutputUtxo(takerIn, terms.destinationMint, terms.destinationAmount)
      case Err(e) => Err(e)
      case Ok(taker) =>
        match CheckOutputUtxo(sourceOutput, orderUtxo.sourceMint.asset, orderUtxo.sourceAmount)
        case Err(e) => Err(e)
        case Ok(sourceOwner) =>
          if sourceOwner != taker then Err(SdkError("source output owner does not match the taker input owner"))
          else
            match CheckOutputUtxo(destinationOutput, terms.destinationMint, terms.destinationAmount)
            case Err(e) => Err(e)
            case Ok(destinationOwner) =>
              if destinationOwner != terms.destination then
                Err(SdkError("destination output owner does not match the order destination"))
              else if terms.takeMode != takeMode then Err(SdkError("order take_mode does not authorize this take"))
              else Ok(taker)
    }

    /** The notes both takes prove over. */
    function ToCore(): Result<TakeCircuit.Core, SdkError> {
      match (ToProofUtxo(orderUtxo.ToOutputUtxo(orderUtxo.terms.destination.viewing), inputTree),
             ToProofUtxo(takerIn, inputTree), ToProofUtxo(sourceOutput, outputTree), ToProofUtxo(destinationOutput,
                                                                                                 outputTree))
      case (Ok(order), Ok(taker), Ok(source), Ok(destination)) =>
        Ok(TakeCircuit.Core(ToProofInput(orderUtxo.terms).Witness(), order, taker, source, destination,
                            privateTxBlinding))
      case _ => Err(SdkError("output owner address missing"))
    }

    function ToTakeInputs(): Result<Inputs<TakeCircuit.Witness>, SdkError> {
      match CheckOutputs(Circuit.TAKE_MODE_DERIVED)
      case Err(e) => Err(e)
      case Ok(_) =>
        var firstNullifier := orderUtxo.SpentBy(inputTree);
        var blindingSeed := TakeBlindingSeed(orderUtxo.blinding);
        var seed := OutputBlindingSeed(firstNullifier, blindingSeed);
        if privateTxBlinding != PrivateTxBlinding(firstNullifier, blindingSeed) then
          Err(SdkError("take blinding seed must derive from the order opening"))
        else if sourceOutput.blinding != OutputBlinding(firstNullifier, seed, 0)
             || destinationOutput.blinding != OutputBlinding(firstNullifier, seed, 1) then
          Err(SdkError("take output blinding must derive from the order opening"))
        else
          match ToCore()
          case Err(e) => Err(e)
          case Ok(core) => TakeInputs(core, orderUtxo.terms.expiry, firstNullifier)
    }

    function ToVerifiableTakeInputs(): Result<Inputs<VerifiableTakeCircuit.Witness>, SdkError> {
      match CheckOutputs(Circuit.TAKE_MODE_VERIFIABLE)
      case Err(e) => Err(e)
      case Ok(taker) =>
        match ToCore()
        case Err(e) => Err(e)
        case Ok(core) =>
          var privateTxHash := CoreTxHash(core);
          var ciphertext := DestinationCiphertext(orderUtxo.blinding, orderUtxo.terms.destinationMint,
                                                  orderUtxo.terms.destinationAmount, destinationOutput.blinding);
          match SwapProgram.VerifiableTakePublicInput(Enc(privateTxHash), orderUtxo.terms.expiry, ciphertext)
          case Err(_) => Err(SdkError("hashing failed"))
          case Ok(h) => Ok(Inputs(h, VerifiableTakeCircuit.Witness(privateTxHash, core, taker.nullifierPk)))
    }
  }

  function CoreTxHash(core: TakeCircuit.Core): Fe {
    PrivateTxHash([Commitment(core.orderUtxo), Commitment(core.takerIn)],
                  [Commitment(core.sourceOutput), Commitment(core.destinationOutput)],
                  core.privateTxBlinding)
  }

  /** The last stage of the derived-take builder: the public input of the notes it has checked. */
  function TakeInputs(core: TakeCircuit.Core, expiry: u64, firstNullifier: Fe)
    : (r: Result<Inputs<TakeCircuit.Witness>, SdkError>)
    ensures r.Ok? ==> r.value.proof == TakeCircuit.Witness(CoreTxHash(core), firstNullifier, core)
    ensures r.Ok? ==>
              SwapProgram.TakePublicInput(Enc(CoreTxHash(core)), expiry, Enc(firstNullifier))
              == Some(r.value.publicInputHash)
  {
    match FromOption(SwapProgram.TakePublicInput(Enc(CoreTxHash(core)), expiry, Enc(firstNullifier)))
    case Err(e) => Err(e)
    case Ok(h) => Ok(Inputs(h, TakeCircuit.Witness(CoreTxHash(core), firstNullifier, core)))
  }

  /** The four notes of a take whose taker is `taker`. */
  function CheckedCore(p: TakeParams, taker: ShieldedAddress): TakeCircuit.Core {
    var o := p.orderUtxo;
    var destinationAsset, destinationAmount := AssetField(o.terms.destinationMint), Num(o.terms.destinationAmount);
    TakeCircuit.Core(
      ToProofInput(o.terms).Witness(),
      o.Note(p.inputTree),
      PlainNote(taker.OwnerHash(), Num(p.inputTree), destinationAsset, destinationAmount, p.takerIn.blinding),
      PlainNote(taker.OwnerHash(), Num(p.outputTree), AssetField(o.sourceMint.asset), Num(o.sourceAmount),
                p.sourceOutput.blinding),
      PlainNote(o.terms.destination.OwnerHash(), Num(p.outputTree), destinationAsset, destinationAmount,
                p.destinationOutput.blinding),
      p.privateTxBlinding)
  }

  /** The shared checks fix all four notes and the taker. */
  lemma CoreOfCheckedOutputs(p: TakeParams, takeMode: u64)
    requires p.CheckOutputs(takeMode).Ok?
    ensures p.takerIn.ownerAddress == Some(p.CheckOutputs(takeMode).value)
    ensures p.orderUtxo.terms.takeMode == takeMode
    ensures p.ToCore() == Ok(CheckedCore(p, p.CheckOutputs(takeMode).value))
  {
    RepresentationsAgree(p.orderUtxo, p.orderUtxo.terms.destination.viewing, p.inputTree, 0);
    var inputTree, outputTree := p.inputTree, p.outputTree;
    assert ToProofUtxo(p.takerIn, inputTree).Ok?;
    assert ToProofUtxo(p.sourceOutput, outputTree).Ok?;
    assert ToProofUtxo(p.destinationOutput, outputTree).Ok?;
  }

  /** Those notes meet every constraint of the circuits' core except that an amount may be zero. */
  lemma CheckedCoreComplete(p: TakeParams, taker: ShieldedAddress)
    requires p.orderUtxo.terms.takeMode <= 1
    ensures var core := CheckedCore(p, taker);
            core.Check(CoreTxHash(core)) <==> p.orderUtxo.sourceAmount != 0 && p.orderUtxo.terms.destinationAmount != 0
  {
  }

  lemma BlindingSeedsAgree(orderBlinding: Fe)
    ensures TakeCircuit.BlindingSeed(orderBlinding) == TakeBlindingSeed(orderBlinding)
  {
  }

  /** The builder's blinding checks are the circuit's derivation. */
  lemma TakeBlindingsChecked(p: TakeParams)
    requires p.ToTakeInputs().Ok?
    ensures TakeCircuit.TransactionBlindings(p.orderUtxo.SpentBy(p.inputTree),
                                             TakeCircuit.BlindingSeed(p.orderUtxo.blinding),
              p.privateTxBlinding, p.sourceOutput.blinding, p.destinationOutput.blinding)
  {
    BlindingSeedsAgree(p.orderUtxo.blinding);
  }

  /** A successful derived-take builder has reached its last stage with the four checked notes. */
  lemma TakeInputsBuilt(p: TakeParams)
    requires p.ToTakeInputs().Ok?
    ensures p.takerIn.ownerAddress.Some? && p.orderUtxo.terms.takeMode == 0
    ensures p.ToTakeInputs()
            == TakeInputs(CheckedCore(p, p.takerIn.ownerAddress.value), p.orderUtxo.terms.expiry,
                          p.orderUtxo.SpentBy(p.inputTree))
  {
    CoreOfCheckedOutputs(p, 0);
  }

  /** A derived-take witness is provable exactly when neither amount is zero. */
  lemma TakeComplete(p: TakeParams)
    requires p.ToTakeInputs().Ok?
    ensures var r := p.ToTakeInputs().value;
            && p.takerIn.ownerAddress.Some?
            && r.proof.core == CheckedCore(p, p.takerIn.ownerAddress.value)
            && r.proof.privateTxHash == CoreTxHash(r.proof.core)
            && r.proof.firstNullifier == p.orderUtxo.SpentBy(p.inputTree)
            && SwapProgram.TakePublicInput(Enc(r.proof.privateTxHash), p.orderUtxo.terms.expiry,
                                           Enc(r.proof.firstNullifier))
               == Some(r.publicInputHash)
            && (TakeCircuit.Define(r.publicInputHash, r.proof) <==>
                  p.orderUtxo.sourceAmount != 0 && p.orderUtxo.terms.destinationAmount != 0)
  {
    TakeInputsBuilt(p);
    TakeBlindingsChecked(p);
    var r := p.ToTakeInputs().value;
    CheckedCoreComplete(p, p.takerIn.ownerAddress.value);
    PublicInputOfEncodings(r.proof.privateTxHash, p.orderUtxo.terms.expiry, r.proof.firstNullifier);
  }

  /** The circuit encrypts exactly what the SDK encrypts. */
  lemma CiphertextsAgree(o: OrderUtxo, w: VerifiableTakeCircuit.Witness)
    requires w.core.order == ToProofInput(o.terms).Witness() && w.core.orderUtxo.blinding == o.blinding
    ensures w.Ciphertext() == DestinationCiphertext(o.blinding, o.terms.destinationMint, o.terms.destinationAmount,
                                                    w.core.destinationOutput.blinding)
  {
  }

  /** An encrypted-take witness is provable exactly when neither amount is zero and the order's
      taker is the Solana key that owns the taker input. */
  lemma VerifiableTakeComplete(p: TakeParams)
    requires p.ToVerifiableTakeInputs().Ok?
    ensures var r := p.ToVerifiableTakeInputs().value;
            && p.takerIn.ownerAddress.Some?
            && r.proof.core == CheckedCore(p, p.takerIn.ownerAddress.value)
            && r.proof.privateTxHash == CoreTxHash(r.proof.core)
            && SwapProgram.VerifiableTakePublicInput(
                 Enc(r.proof.privateTxHash), p.orderUtxo.terms.expiry,
                 DestinationCiphertext(p.orderUtxo.blinding, p.orderUtxo.terms.destinationMint,
                                       p.orderUtxo.terms.destinationAmount, p.destinationOutput.blinding))
               == Result.Ok(r.publicInputHash)
            && (VerifiableTakeCircuit.Define(r.publicInputHash, r.proof) <==>
                  && p.orderUtxo.sourceAmount != 0
                  && p.orderUtxo.terms.destinationAmount != 0
                  && p.takerIn.ownerAddress.value.signing == Ed25519(p.orderUtxo.terms.taker))
  {
    CoreOfCheckedOutputs(p, 1);
    CheckedCoreComplete(p, p.CheckOutputs(1).value);
    var r := p.ToVerifiableTakeInputs().value;
    var terms := p.orderUtxo.terms;
    CiphertextsAgree(p.orderUtxo, r.proof);
    PublicInputOfEncodings(r.proof.privateTxHash, terms.expiry, BytesHash(r.proof.Ciphertext()));
    var taker := p.takerIn.ownerAddress.value;
    if r.proof.core.takerIn.owner == Poseidon([SolanaIdentity(terms.taker), taker.nullifierPk]) {
      OwnerHashOpens(taker, SolanaIdentity(terms.taker), taker.nullifierPk);
    }
  }

  /* cancel */

  datatype CancelParams = CancelParams(
    orderUtxo: OrderUtxo, sourceOutput: OutputUtxo, privateTxBlinding: Fe, inputTree: u16, outputTree: u16)
  {
    function ToProofInputs(): Result<Inputs<CancelCircuit.Witness>, SdkError> {
      var terms := orderUtxo.terms;
      match CheckOutputUtxo(sourceOutput, orderUtxo.sourceMint.asset, orderUtxo.sourceAmount)
      case Err(e) => Err(e)
      case Ok(maker) =>
        if maker != terms.destination then Err(SdkError("source output owner does not match the order destination"))
        else
          match (ToProofUtxo(orderUtxo.ToOutputUtxo(terms.destination.viewing), inputTree),
                 ToProofUtxo(sourceOutput, outputTree))
          case (Ok(order), Ok(source)) =>
            var privateTxHash := PrivateTxHash([Commitment(order)], [Commitment(source)], privateTxBlinding);
            (match FromOption(SwapProgram.CancelPublicInput(Enc(privateTxHash), terms.expiry,
                                                            OwnerField(maker.signing)))
             case Err(e) => Err(e)
             case Ok(h) =>
               Ok(Inputs(h, CancelCircuit.Witness(privateTxHash, ToProofInput(terms).Witness(), order, source,
                                                  OwnerField(maker.signing), maker.nullifierPk, privateTxBlinding))))
          case (Err(e), _) => Err(e)
          case (_, Err(e)) => Err(e)
    }
  }

  /** A cancel witness is provable exactly when the source amount is nonzero. */
  lemma CancelComplete(p: CancelParams)
    requires p.ToProofInputs().Ok?
    ensures var r := p.ToProofInputs().value;
            && r.proof.orderUtxo == p.orderUtxo.Note(p.inputTree)
            && r.proof.sourceOutput
               == PlainNote(p.orderUtxo.terms.destination.OwnerHash(), Num(p.outputTree),
                            AssetField(p.orderUtxo.sourceMint.asset), Num(p.orderUtxo.sourceAmount),
                            p.sourceOutput.blinding)
            && SwapProgram.CancelPublicInput(Enc(r.proof.privateTxHash), p.orderUtxo.terms.expiry,
                                             OwnerField(p.orderUtxo.terms.destination.signing))
               == Some(r.publicInputHash)
            && (CancelCircuit.Define(r.publicInputHash, r.proof) <==> p.orderUtxo.sourceAmount != 0)
  {
    RepresentationsAgree(p.orderUtxo, p.orderUtxo.terms.destination.viewing, p.inputTree, 0);
    var r := p.ToProofInputs().value;
    var maker := p.orderUtxo.terms.destination;
    PublicInputOfEncodings(r.proof.privateTxHash, p.orderUtxo.terms.expiry, OwnerField(maker.signing));
    var outputTree := p.outputTree;
    assert ToProofUtxo(p.sourceOutput, outputTree).Ok?;
  }

  /* The encrypted payout. */

  function TakeSharedSecret(orderBlinding: Fe): (secret: Fe)
    ensures Hashv([Enc(orderBlinding), U64RightAligned(0x5357_4150_5441_4b45)]) == Some(secret)
  {
    HashvOfEncodings([orderBlinding, Num(Circuit.TAKE_ENC_KDF_DOMAIN)],
                     [Enc(orderBlinding), U64RightAligned(Circuit.TAKE_ENC_KDF_DOMAIN)]);
    Poseidon([orderBlinding, Num(Circuit.TAKE_ENC_KDF_DOMAIN)])
  }

  function DestinationPlaintext(mint: Address, amount: u64, outputBlinding: Fe): (b: seq<Byte>)
    ensures |b| == DESTINATION_CIPHERTEXT_LEN
  {
    U64Bytes(amount) + Enc(AssetField(mint)) + Enc(outputBlinding)
  }

  function DestinationCiphertext(orderBlinding: Fe, mint: Address, amount: u64, outputBlinding: Fe): (b: seq<Byte>)
    ensures |b| == DESTINATION_CIPHERTEXT_LEN
  {
    ApplyKeystream(TakeSharedSecret(orderBlinding), DestinationPlaintext(mint, amount, outputBlinding))
  }

  datatype Payout = Payout(asset: Bytes32, amount: u64, blinding: Bytes32)

  function DecryptedDestination(orderBlinding: Fe, ciphertext: seq<Byte>): Option<Payout>
    requires |ciphertext| == DESTINATION_CIPHERTEXT_LEN
  {
    var plaintext := ApplyKeystream(TakeSharedSecret(orderBlinding), ciphertext);
    match ReadU64(plaintext[..8])
    case None => None
    case Some(amount) => Some(Payout(plaintext[8..40], amount, plaintext[40..]))
  }

  /** destination_ciphertext_with_hash: fills and encrypts a buffer in place. */
  method DestinationCiphertextWithHash(orderBlinding: Fe, mint: Address, amount: u64, outputBlinding: Fe)
    returns (ciphertext: seq<Byte>, ciphertextHash: Fe)
    ensures ciphertext == DestinationCiphertext(orderBlinding, mint, amount, outputBlinding)
    ensures ciphertextHash == BytesHash(ciphertext)
  {
    var plaintext := new Byte[DESTINATION_CIPHERTEXT_LEN](_ => ZERO_BYTE);
    CopyFrom(plaintext, 0, U64Bytes(amount));
    CopyFrom(plaintext, 8, Enc(AssetField(mint)));
    CopyFrom(plaintext, 40, Enc(outputBlinding));
    assert plaintext[..] == DestinationPlaintext(mint, amount, outputBlinding);
    SymmetricApply(TakeSharedSecret(orderBlinding), plaintext);
    ciphertext := plaintext[..];
    ciphertextHash := BytesHash(ciphertext);
  }

  /** decrypt_destination: decrypts a copy in place and splits it. */
  method DecryptDestination(orderBlinding: Fe, ciphertext: seq<Byte>) returns (payout: Option<Payout>)
    requires |ciphertext| == DESTINATION_CIPHERTEXT_LEN
    ensures payout == DecryptedDestination(orderBlinding, ciphertext)
  {
    var plaintext := new Byte[DESTINATION_CIPHERTEXT_LEN](_ => ZERO_BYTE);
    CopyFrom(plaintext, 0, ciphertext);
    assert plaintext[..] == ciphertext;
    SymmetricApply(TakeSharedSecret(orderBlinding), plaintext);
    assert plaintext[0..8] == plaintext[..][..8];
    assert plaintext[8..40] == plaintext[..][8..40] && plaintext[40..72] == plaintext[..][40..];
    var amount := ReadU64(plaintext[0..8]);
    if amount.None? {
      return None;
    }
    payout := Some(Payout(plaintext[8..40], amount.value, plaintext[40..72]));
  }

  /** Decryption under the same order blinding returns the mint hash, amount and blinding. */
  lemma DecryptEncrypted(orderBlinding: Fe, mint: Address, amount: u64, outputBlinding: Fe)
    ensures DecryptedDestination(orderBlinding, DestinationCiphertext(orderBlinding, mint, amount, outputBlinding))
            == Some(Payout(Enc(AssetField(mint)), amount, Enc(outputBlinding)))
  {
    var plaintext := DestinationPlaintext(mint, amount, outputBlinding);
    KeystreamInvolution(TakeSharedSecret(orderBlinding), plaintext);
    assert plaintext[..8] == U64Bytes(amount);
    assert plaintext[8..40] == Enc(AssetField(mint)) && plaintext[40..] == Enc(outputBlinding);
    ReadU64Bytes(amount);
  }

  /** Only the order's own blinding opens the ciphertext: under any other the payout does not come out. */
  lemma DecryptsUnderItsKeyOnly(orderBlinding: Fe, other: Fe, mint: Address, amount: u64, outputBlinding: Fe)
    ensures DecryptedDestination(other, DestinationCiphertext(orderBlinding, mint, amount, outputBlinding))
            == Some(Payout(Enc(AssetField(mint)), amount, Enc(outputBlinding)))
            <==> other == orderBlinding
  {
    DecryptEncrypted(orderBlinding, mint, amount, outputBlinding);
    if other != orderBlinding {
      var plaintext := DestinationPlaintext(mint, amount, outputBlinding);
      var ciphertext := ApplyKeystream(TakeSharedSecret(orderBlinding), plaintext);
      if TakeSharedSecret(orderBlinding) == TakeSharedSecret(other) {
        SecretOpens(orderBlinding, other);
      }
      KeystreamAt(TakeSharedSecret(orderBlinding), plaintext, 0);
      KeystreamAt(TakeSharedSecret(other), ciphertext, 0);
      var own := Pad(TakeSharedSecret(orderBlinding), "TSPP/merge", 0);
      assert plaintext[0] == U64Bytes(amount)[0];
      assert own in ciphertext[0].pads;
      assert own in ApplyKeystream(TakeSharedSecret(other), ciphertext)[..8][0].pads;
    }
  }

  lemma SecretOpens(a: Fe, b: Fe)
    requires TakeSharedSecret(a) == TakeSharedSecret(b)
    ensures a == b
  {
    assert TakeSharedSecret(a).args[0] == a && TakeSharedSecret(b).args[0] == b;
  }
}
