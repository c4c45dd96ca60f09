/** The maker recovers its payout from its own order opening and public data alone. */
module Recovery {
  import opened Ideal
  import opened Notes
  import opened Pool
  import opened Runtime
  import opened SwapProgram
  import opened Binding
  import opened Order
  import opened Settlement
  import opened SwapSdk
  import Cipher
  import TakeCircuit
  import VerifiableTakeCircuit

  /** Every appended note is in the tree the transaction names. */
  lemma CreatedInOutputTree(s: State, tx: Transact, signers: set<Fe>, u: Utxo)
    requires Accepts(s, tx, signers) && Commitment(u) in RealOutputs(tx)
    ensures u.treeId == Num(tx.proof.outputTree) && IsU64(u.amount)
    ensures Commitment(u) in Apply(s, tx).leaves
  {
    var hashes := OutputHashes(tx.proof.outputs);
    NonZeroMembers(hashes, Commitment(u));
    var i :| 0 <= i < |hashes| && hashes[i] == Commitment(u);
    assert tx.proof.outputs[i].Create? && tx.proof.outputs[i].utxo == u;
  }

  /** The second payout of either take is the maker's note, in the output tree. */
  lemma MakerPayout(s: State, tx: Transact, signers: set<Fe>, core: TakeCircuit.Core, privateTxHash: Fe, o: OrderUtxo,
                    t: u16)
    requires Accepts(s, tx, signers) && CoreBound(core, privateTxHash, tx) && Consumes(tx, o.Note(t))
    ensures core.orderUtxo == o.Note(t) && core.order == ToProofInput(o.terms).Witness()
    ensures RealOutputs(tx)[1] == Commitment(core.destinationOutput) && RealOutputs(tx)[1] in Apply(s, tx).leaves
    ensures IsMakerNote(o, tx.proof.outputTree, core.destinationOutput)
  {
    CorePays(core, privateTxHash, tx, o, t);
    assert RealOutputs(tx)[1] == Commitment(core.destinationOutput);
    CreatedInOutputTree(s, tx, signers, core.destinationOutput);
  }

  predicate IsMakerNote(o: OrderUtxo, tree: u16, u: Utxo) {
    u == PlainNote(o.terms.destination.OwnerHash(), Num(tree), AssetField(o.terms.destinationMint),
                   Num(o.terms.destinationAmount), u.blinding)
  }

  /** The circuit's blinding derivation is the one the maker repeats. */
  lemma DerivedOutputIsPayout(w: TakeCircuit.Witness, o: OrderUtxo, t: u16, tree: u16)
    requires w.core.orderUtxo == o.Note(t) && o.terms.takeMode == 0
    requires IsMakerNote(o, tree, w.core.destinationOutput)
    requires TakeCircuit.TransactionBlindings(w.firstNullifier, TakeCircuit.BlindingSeed(w.core.orderUtxo.blinding),
               w.core.privateTxBlinding, w.core.sourceOutput.blinding, w.core.destinationOutput.blinding)
    ensures o.DerivedDestinationOutput(Enc(w.firstNullifier)).Ok?
    ensures OutputHash(o.DerivedDestinationOutput(Enc(w.firstNullifier)).value, tree)
            == Ok(Commitment(w.core.destinationOutput))
  {
    DecEnc(w.firstNullifier);
    BlindingSeedsAgree(o.blinding);
  }

  /** The maker can derive a payout exactly for an order of mode 0 and the encoding of a field element. */
  lemma DerivedOutputIff(o: OrderUtxo, firstNullifier: Bytes32)
    ensures o.DerivedDestinationOutput(firstNullifier).Ok?
            <==> o.terms.takeMode == 0 && exists nullifier: Fe :: firstNullifier == Enc(nullifier)
    ensures o.DerivedDestinationOutput(firstNullifier).Ok? ==> o.terms.takeMode == 0
  {
    DecIsEnc(firstNullifier);
    if nullifier: Fe :| firstNullifier == Enc(nullifier) {
      DecEnc(nullifier);
    }
  }

  /** The output the maker derives from its opening and the first published nullifier is the
      second note the transaction appended. */
  predicate DerivedRecovery(s: State, tx: Transact, o: OrderUtxo) {
    && tx.inputs != []
    && o.DerivedDestinationOutput(tx.inputs[0]).Ok?
    && |RealOutputs(tx)| == 2 && RealOutputs(tx)[1] in Apply(s, tx).leaves
    && OutputHash(o.DerivedDestinationOutput(tx.inputs[0]).value, tx.proof.outputTree) == Ok(RealOutputs(tx)[1])
  }

  lemma BoundTakeRecovers(s: State, w: TakeCircuit.Witness, tx: Transact, signers: set<Fe>, o: OrderUtxo, t: u16)
    requires TakeBound(s.now, w, tx) && Accepts(s, tx, signers) && Consumes(tx, o.Note(t))
    ensures DerivedRecovery(s, tx, o)
  {
    MakerPayout(s, tx, signers, w.core, w.privateTxHash, o, t);
    assert w.core.order.takeMode == Num(o.terms.takeMode);
    DerivedOutputIsPayout(w, o, t, tx.proof.outputTree);
  }

  /** After any accepted derived take of an order the maker derives its payout, whatever
      ciphertexts the transaction carries: none is read. */
  lemma DerivedPayoutRecovered(s: State, accounts: seq<Account>, ix: TakeIx, call: PoolCall, o: OrderUtxo, t: u16)
    requires TakeCall(s.now, accounts, Some(ix)) == Ok(call) && Accepts(s, call.transact, call.signers)
    requires Consumes(call.transact, o.Note(t))
    ensures DerivedRecovery(s, call.transact, o)
  {
    TakeBinds(s, accounts, ix, call);
    BoundTakeRecovers(s, ix.proof, call.transact, call.signers, o, t);
  }

  /** The note the maker rebuilds from a decrypted payout. */
  function RebuiltPayout(o: OrderUtxo, payout: Payout, tree: u16): Option<Utxo> {
    match (Dec(payout.asset), Dec(payout.blinding))
    case (Some(asset), Some(outputBlinding)) =>
      Some(PlainNote(o.terms.destination.OwnerHash(), Num(tree), asset, Num(payout.amount), outputBlinding))
    case _ => None
  }

  /** What the last output's data must decrypt to. */
  predicate Recovers(o: OrderUtxo, data: Option<seq<Byte>>, tree: u16, u: Utxo) {
    && data.Some? && |data.value| == Cipher.DESTINATION_CIPHERTEXT_LEN
    && DecryptedDestination(o.blinding, data.value)
       == Some(Payout(Enc(AssetField(o.terms.destinationMint)), o.terms.destinationAmount, Enc(u.blinding)))
    && RebuiltPayout(o, DecryptedDestination(o.blinding, data.value).value, tree) == Some(u)
  }

  /** The circuit's ciphertext is the one the maker decrypts. */
  lemma CiphertextRecovers(w: VerifiableTakeCircuit.Witness, o: OrderUtxo, t: u16, tree: u16)
    requires w.core.orderUtxo == o.Note(t) && w.core.order == ToProofInput(o.terms).Witness()
    requires IsMakerNote(o, tree, w.core.destinationOutput)
    ensures Recovers(o, Some(w.Ciphertext()), tree, w.core.destinationOutput)
  {
    CiphertextsAgree(o, w);
    DecryptEncrypted(o.blinding, o.terms.destinationMint, o.terms.destinationAmount, w.core.destinationOutput.blinding);
    DecEnc(AssetField(o.terms.destinationMint));
    DecEnc(w.core.destinationOutput.blinding);
  }

  /** The last output's data decrypts under the order blinding to the terms' asset and amount and
      the appended note's blinding, and the note rebuilt from them is the second one appended. */
  predicate EncryptedRecovery(s: State, tx: Transact, o: OrderUtxo, u: Utxo) {
    && tx.outputs != []
    && Recovers(o, tx.outputs[|tx.outputs| - 1].data, tx.proof.outputTree, u)
    && |RealOutputs(tx)| == 2 && RealOutputs(tx)[1] in Apply(s, tx).leaves
    && RealOutputs(tx)[1] == Commitment(u)
  }

  lemma BoundVerifiableTakeRecovers(s: State, w: VerifiableTakeCircuit.Witness, tx: Transact, signers: set<Fe>,
                                    o: OrderUtxo, t: u16)
    requires VerifiableTakeBound(s.now, w, tx) && Accepts(s, tx, signers) && Consumes(tx, o.Note(t))
    ensures EncryptedRecovery(s, tx, o, w.core.destinationOutput)
  {
    MakerPayout(s, tx, signers, w.core, w.privateTxHash, o, t);
    CiphertextRecovers(w, o, t, tx.proof.outputTree);
  }

  /** After any accepted encrypted take of an order the maker recovers its payout from the last
      output's data. */
  lemma EncryptedPayoutRecovered(s: State, accounts: seq<Account>, ix: VerifiableTakeIx, call: PoolCall, o: OrderUtxo,
                                 t: u16)
    requires VerifiableTakeCall(s.now, accounts, Some(ix)) == Ok(call) && Accepts(s, call.transact, call.signers)
    requires Consumes(call.transact, o.Note(t))
    ensures EncryptedRecovery(s, call.transact, o, ix.proof.core.destinationOutput)
  {
    VerifiableTakeBinds(s, accounts, ix, call);
    BoundVerifiableTakeRecovers(s, ix.proof, call.transact, call.signers, o, t);
  }
}
