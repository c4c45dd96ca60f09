/** The timelock escrow's two circuits. */
module EscrowCircuits {
  import opened Ideal
  import opened OrderTermsCircuit

  datatype EscrowTerms = EscrowTerms(ownerHash: Fe, unlock: Fe)
  {
    function DataHash(): Fe {
      Poseidon([ownerHash, unlock])
    }
  }

  datatype EscrowWitness = EscrowWitness(
    terms: EscrowTerms, escrowUtxo: Utxo, change: Utxo, sourceInputHash: Fe, privateTxBlinding: Fe)

  datatype WithdrawWitness = WithdrawWitness(
    privateTxHash: Fe, terms: EscrowTerms, escrowUtxo: Utxo, sourceOutput: Utxo,
    ownerPkField: Fe, nullifierPk: Fe, privateTxBlinding: Fe)

  predicate IsEscrowUtxo(terms: EscrowTerms, u: Utxo) {
    DefaultRing(u) && u.dataHash == terms.DataHash() && u.amount != ZERO
  }

  predicate DefineEscrow(privateTxHash: Fe, w: EscrowWitness) {
    && IsEscrowUtxo(w.terms, w.escrowUtxo)
    && IsPlainUtxo(w.change, w.terms.ownerHash, w.escrowUtxo.asset)
    && privateTxHash == PrivateTxHash([w.sourceInputHash, ZERO],
                                      [Commitment(w.change), Commitment(w.escrowUtxo)],
                                      w.privateTxBlinding)
  }

  predicate DefineWithdraw(publicInputHash: Fe, w: WithdrawWitness) {
    && IsEscrowUtxo(w.terms, w.escrowUtxo)
    && IsPlainUtxo(w.sourceOutput, w.terms.ownerHash, w.escrowUtxo.asset)
    && w.sourceOutput.amount == w.escrowUtxo.amount
    && Poseidon([w.ownerPkField, w.nullifierPk]) == w.terms.ownerHash
    && w.privateTxHash == PrivateTxHash([Commitment(w.escrowUtxo)], [Commitment(w.sourceOutput)], w.privateTxBlinding)
    && publicInputHash == Poseidon([w.privateTxHash, w.terms.unlock, w.ownerPkField])
  }
}

/** The escrow program's two instruction processors, up to the pool call. */
module EscrowProgram {
  import opened Ideal
  import opened Notes
  import opened Pool
  import opened Runtime
  import opened EscrowCircuits

  datatype EscrowIx = EscrowIx(proof: EscrowWitness, transact: Transact)
  datatype WithdrawIx = WithdrawIx(proof: WithdrawWitness, unlockTimestamp: u64, transact: Transact)

  function WithdrawPublicInput(privateTxHash: Bytes32, unlock: u64, ownerPkField: Fe): Option<Fe> {
    Hashv([privateTxHash, U64RightAligned(unlock), Enc(ownerPkField)])
  }

  function EscrowCall(accounts: seq<Account>, data: Option<EscrowIx>): (r: Result<PoolCall, Error>)
    ensures r.Ok? ==> |accounts| >= 1 && r.value.signers == CallSigners(accounts[1..], ESCROW_AUTHORITY)
    ensures r.Ok? ==> data.Some? && r.value.transact == data.value.transact
  {
    match NextSignerMut(accounts)
    case Err(e) => Err(e)
    case Ok(_) =>
      if data.None? then Err(InvalidInstructionData)
      else
        var proof, tx := data.value.proof, data.value.transact;
        var publicInput := Dec(tx.privateTxHash);
        if publicInput.None? || !DefineEscrow(publicInput.value, proof) then Err(ProofVerificationFailed)
        else CpiTransactSigned(accounts[1..], ESCROW_AUTHORITY, tx)
  }

  function WithdrawCall(now: i64, accounts: seq<Account>, data: Option<WithdrawIx>): (r: Result<PoolCall, Error>)
    ensures r.Ok? ==> |accounts| >= 2 && r.value.signers == CallSigners(accounts[2..], ESCROW_AUTHORITY)
    ensures r.Ok? ==> data.Some? && r.value.transact == data.value.transact
  {
    match NextSignerMut(accounts)
    case Err(e) => Err(e)
    case Ok(_) =>
      match NextSigner(accounts[1..])
      case Err(e) => Err(e)
      case Ok(creator) =>
        if data.None? then Err(InvalidInstructionData)
        else
          var proof, unlock, tx := data.value.proof, data.value.unlockTimestamp, data.value.transact;
          if !CheckAfterWindow(now, unlock) then Err(NotYetUnlocked)
          else
            var publicInput := WithdrawPublicInput(tx.privateTxHash, unlock, SolanaIdentity(creator));
            if publicInput.None? then Err(HashingFailed)
            else if !DefineWithdraw(publicInput.value, proof) then Err(ProofVerificationFailed)
            else CpiTransactSigned(accounts[2..], ESCROW_AUTHORITY, tx)
  }
}

/** The SDK's escrow note and proof-input builders. */
module EscrowSdk {
  import opened Ideal
  import opened Notes
  import opened ProofInputs
  import Circuits = EscrowCircuits
  import EscrowProgram

  datatype EscrowTerms = EscrowTerms(creator: ShieldedAddress, unlockTimestamp: u64)
  {
    function Witness(): Circuits.EscrowTerms {
      Circuits.EscrowTerms(creator.OwnerHash(), Num(unlockTimestamp))
    }

    function DataHash(): (r: Option<Fe>)
      ensures r == Some(Witness().DataHash())
    {
      HashvOfEncodings(Witness().DataHash().args, [Enc(creator.OwnerHash()), U64RightAligned(unlockTimestamp)]);
      Hashv([Enc(creator.OwnerHash()), U64RightAligned(unlockTimestamp)])
    }
  }

  const ESCROW_SECRET: Fe := ZERO

  function EscrowOwner(): Fe {
    Poseidon([SolanaIdentity(ESCROW_AUTHORITY), NullifierKey(ESCROW_SECRET)])
  }

  datatype EscrowUtxo = EscrowUtxo(terms: EscrowTerms, blinding: Fe, asset: Mint, amount: u64)
  {
    function Note(tree: u16): Utxo {
      Utxo(EscrowOwner(), Num(tree), AssetField(asset.asset), Num(amount), blinding, terms.Witness().DataHash(), ZERO,
           ZERO)
    }

    function Leaf(tree: u16): Fe {
      Commitment(Note(tree))
    }

    function SpentBy(tree: u16): Fe {
      Nullifier(Leaf(tree), blinding, ESCROW_SECRET)
    }

    function ToOutputUtxo(): OutputUtxo {
      var owner := ShieldedAddress(Ed25519(ESCROW_AUTHORITY), NullifierKey(ESCROW_SECRET), terms.creator.viewing);
      OutputUtxo(asset, amount, blinding, Some(owner), terms.DataHash(), None, None, [])
    }

    function ToInputUtxo(tree: u16, leafIndex: u64): InputUtxo {
      var owner := Ed25519(ESCROW_AUTHORITY);
      var nullifierPk := NullifierKey(ESCROW_SECRET);
      var utxoHash := SpendHash(owner, nullifierPk, asset, amount, blinding, OrZero(terms.DataHash()), tree);
      InputUtxo(owner, asset, amount, blinding, utxoHash, Nullifier(utxoHash, blinding, ESCROW_SECRET),
                nullifierPk, terms.DataHash(), tree, leafIndex)
    }
  }

  /** The escrow note has one commitment and one nullifier in both of its representations. */
  lemma EscrowRepresentationsAgree(e: EscrowUtxo, tree: u16, leafIndex: u64)
    ensures ToProofUtxo(e.ToOutputUtxo(), tree) == Ok(e.Note(tree))
    ensures OutputHash(e.ToOutputUtxo(), tree) == Ok(e.ToInputUtxo(tree, leafIndex).utxoHash)
    ensures e.ToInputUtxo(tree, leafIndex).utxoHash == e.Leaf(tree)
    ensures e.ToInputUtxo(tree, leafIndex).nullifier == e.SpentBy(tree)
  {
  }

  /** The note as it is spent carries its own opening; as it is made it is addressed to the creator's viewing
      key and publishes nothing. */
  lemma EscrowInputOpensItself(e: EscrowUtxo, tree: u16, leafIndex: u64)
    ensures var note := e.ToInputUtxo(tree, leafIndex);
            && note.dataHash.Some?
            && note.utxoHash == SpendHash(note.owner, note.nullifierPk, note.asset, note.amount, note.blinding,
                                          note.dataHash.value, note.treeId)
            && note.utxoHash == e.Leaf(tree) && note.nullifierPk == NullifierKey(ZERO)
            && note.nullifier == Nullifier(note.utxoHash, note.blinding, ZERO)
            && note.asset == e.asset && note.treeId == tree && note.leafIndex == leafIndex
    ensures var output := e.ToOutputUtxo();
            && output.ownerAddress.Some? && output.ownerAddress.value.viewing == e.terms.creator.viewing
            && output.asset == e.asset && output.utxoData == []
  {
  }

  datatype EscrowParams = EscrowParams(
    escrowUtxo: EscrowUtxo, change: OutputUtxo, sourceInputHash: Fe, privateTxBlinding: Fe, outputTree: u16)
  {
    function ChangeNote(): Utxo {
      PlainNote(escrowUtxo.terms.creator.OwnerHash(), Num(outputTree), AssetField(escrowUtxo.asset.asset),
                Num(change.amount), change.blinding)
    }

    function ToProofInputs(): Result<Inputs<Circuits.EscrowWitness>, SdkError> {
      if change.ownerAddress != Some(escrowUtxo.terms.creator) then
        Err(SdkError("change owner does not match escrow creator"))
      else if change.asset != escrowUtxo.asset then Err(SdkError("change asset does not match escrow asset"))
      else if change.dataHash.Some? || change.ringDataHash.Some? || change.ringProgramId.Some? then
        Err(SdkError("change output must not carry data or ring commitments"))
      else
        match (ToProofUtxo(escrowUtxo.ToOutputUtxo(), outputTree), ToProofUtxo(change, outputTree))
        case (Ok(escrow), Ok(changeUtxo)) =>
          var privateTxHash := PrivateTxHash([sourceInputHash, ZERO], [Commitment(changeUtxo), Commitment(escrow)],
                                             privateTxBlinding);
          Ok(Inputs(privateTxHash,
                    Circuits.EscrowWitness(escrowUtxo.terms.Witness(), escrow, changeUtxo, sourceInputHash,
                                           privateTxBlinding)))
        case (Err(e), _) => Err(e)
        case (_, Err(e)) => Err(e)
    }
  }

  /** An escrow witness is provable exactly when the locked amount is nonzero. */
  lemma EscrowComplete(p: EscrowParams)
    requires p.ToProofInputs().Ok?
    ensures var r := p.ToProofInputs().value;
            && r.proof.escrowUtxo == p.escrowUtxo.Note(p.outputTree)
            && r.publicInputHash
               == PrivateTxHash([p.sourceInputHash, ZERO], [Commitment(p.ChangeNote()), Commitment(r.proof.escrowUtxo)],
                                                  p.privateTxBlinding)
            && (Circuits.DefineEscrow(r.publicInputHash, r.proof) <==> p.escrowUtxo.amount != 0)
  {
    EscrowRepresentationsAgree(p.escrowUtxo, p.outputTree, 0);
  }

  datatype WithdrawParams = WithdrawParams(
    escrowUtxo: EscrowUtxo, sourceOutput: OutputUtxo, privateTxBlinding: Fe, inputTree: u16, outputTree: u16)
  {
    function ToProofInputs(): Result<Inputs<Circuits.WithdrawWitness>, SdkError> {
      match CheckOutputUtxo(sourceOutput, escrowUtxo.asset.asset, escrowUtxo.amount)
      case Err(e) => Err(e)
      case Ok(creator) =>
        if creator != escrowUtxo.terms.creator then
          Err(SdkError("source output owner does not match the escrow creator"))
        else
          match (ToProofUtxo(escrowUtxo.ToOutputUtxo(), inputTree), ToProofUtxo(sourceOutput, outputTree))
          case (Ok(escrow), Ok(source)) =>
            var privateTxHash := PrivateTxHash([Commitment(escrow)], [Commitment(source)], privateTxBlinding);
            (match FromOption(EscrowProgram.WithdrawPublicInput(Enc(privateTxHash), escrowUtxo.terms.unlockTimestamp,
                                                                OwnerField(creator.signing)))
             case Err(e) => Err(e)
             case Ok(h) =>
               Ok(Inputs(h, Circuits.WithdrawWitness(privateTxHash, escrowUtxo.terms.Witness(), escrow, source,
                                                     OwnerField(creator.signing), creator.nullifierPk,
                                                     privateTxBlinding))))
          case (Err(e), _) => Err(e)
          case (_, Err(e)) => Err(e)
    }
  }

  /** A withdraw witness is provable exactly when the locked amount is nonzero. */
  lemma WithdrawComplete(p: WithdrawParams)
    requires p.ToProofInputs().Ok?
    ensures var r := p.ToProofInputs().value;
            && r.proof.escrowUtxo == p.escrowUtxo.Note(p.inputTree)
            && r.proof.privateTxHash
               == PrivateTxHash([p.escrowUtxo.Leaf(p.inputTree)], [Commitment(r.proof.sourceOutput)],
                                p.privateTxBlinding)
            && EscrowProgram.WithdrawPublicInput(Enc(r.proof.privateTxHash), p.escrowUtxo.terms.unlockTimestamp,
                                                 OwnerField(p.escrowUtxo.terms.creator.signing))
               == Some(r.publicInputHash)
            && (Circuits.DefineWithdraw(r.publicInputHash, r.proof) <==> p.escrowUtxo.amount != 0)
  {
    EscrowRepresentationsAgree(p.escrowUtxo, p.inputTree, 0);
    var r := p.ToProofInputs().value;
    var outputTree := p.outputTree;
    assert ToProofUtxo(p.sourceOutput, outputTree).Ok?;
    PublicInputOfEncodings(r.proof.privateTxHash, p.escrowUtxo.terms.unlockTimestamp,
                           OwnerField(p.escrowUtxo.terms.creator.signing));
  }
}
