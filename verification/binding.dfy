/** What an accepted proof says about the transaction that is forwarded with it. */
module Binding {
  import opened Ideal
  import opened Pool
  import opened Runtime
  import opened SwapProgram
  import opened EscrowProgram
  import OrderTermsCircuit
  import MakeCircuit
  import TakeCircuit
  import VerifiableTakeCircuit
  import CancelCircuit
  import EscrowCircuits

  /** The three public values are the ones hashed into the public input. */
  lemma PublicInputBinds(first: Bytes32, second: u64, third: Bytes32, x: Fe, y: Fe, z: Fe)
    requires Hashv([first, U64RightAligned(second), third]) == Some(Poseidon([x, y, z]))
    ensures first == Enc(x) && y == Num(second) && third == Enc(z)
  {
    var h := Hashv([first, U64RightAligned(second), third]).value;
    assert h.args[0] == x && h.args[1] == y && h.args[2] == z;
    EncInjective(y, Num(second));
  }

  /** Equal private transaction hashes mean equal nonzero inputs and outputs, in order: padding
      on either side is invisible and nothing else is. */
  lemma TransactBinds(s: State, tx: Transact, signers: set<Fe>, inputs: seq<Fe>, outputs: seq<Fe>, blinding: Fe)
    requires Accepts(s, tx, signers)
    requires tx.privateTxHash == Enc(PrivateTxHash(inputs, outputs, blinding))
    ensures RealInputs(tx) == NonZero(inputs) && RealOutputs(tx) == NonZero(outputs)
    ensures tx.proof.privateTxBlinding == blinding
  {
    EncInjective(PrivateTxHash(inputs, outputs, blinding),
                 PrivateTxHash(InputHashes(tx.proof.inputs), OutputHashes(tx.proof.outputs),
                               tx.proof.privateTxBlinding));
  }

  /** Inserting zero entries anywhere leaves the private transaction hash unchanged. */
  lemma PaddingIsInvisible(before: seq<Fe>, padding: seq<Fe>, after: seq<Fe>, outputs: seq<Fe>, blinding: Fe)
    requires forall i :: 0 <= i < |padding| ==> padding[i] == ZERO
    ensures PrivateTxHash(before + padding + after, outputs, blinding)
            == PrivateTxHash(before + after, outputs, blinding)
    ensures PrivateTxHash(outputs, before + padding + after, blinding)
            == PrivateTxHash(outputs, before + after, blinding)
  {
    NonZeroConcat(before + padding, after);
    NonZeroConcat(before, padding);
    NonZeroConcat(before, after);
    if NonZero(padding) != [] {
      NonZeroMembers(padding, NonZero(padding)[0]);
    }
  }

  /** The proof's source input is the only note a make spends; the change, of any amount, and the
      order are the notes it appends, in that order. */
  predicate MakeBound(w: MakeCircuit.Witness, tx: Transact) {
    && w.order.Check()
    && OrderTermsCircuit.IsOrderUtxo(w.order, w.orderUtxo)
    && OrderTermsCircuit.IsPlainUtxo(w.change, w.order.makerOwnerHash, w.orderUtxo.asset)
    && RealInputs(tx) == (if w.sourceInputHash == ZERO then [] else [w.sourceInputHash])
    && RealOutputs(tx) == [Commitment(w.change), Commitment(w.orderUtxo)]
  }

  /** What the processor has checked of a make it forwards. */
  lemma MakeProves(accounts: seq<Account>, ix: MakeIx, call: PoolCall)
    requires MakeCall(accounts, Some(ix)) == Ok(call)
    ensures call.transact == ix.transact.(messages := call.transact.messages)
    ensures ix.proof.order.Check() && OrderTermsCircuit.IsOrderUtxo(ix.proof.order, ix.proof.orderUtxo)
    ensures OrderTermsCircuit.IsPlainUtxo(ix.proof.change, ix.proof.order.makerOwnerHash, ix.proof.orderUtxo.asset)
    ensures ix.transact.privateTxHash
            == Enc(PrivateTxHash([ix.proof.sourceInputHash, ZERO],
                                 [Commitment(ix.proof.change), Commitment(ix.proof.orderUtxo)],
                                 ix.proof.privateTxBlinding))
  {
    DecIsEnc(ix.transact.privateTxHash);
  }

  lemma MakeBinds(s: State, accounts: seq<Account>, ix: MakeIx, call: PoolCall)
    requires MakeCall(accounts, Some(ix)) == Ok(call)
    requires Accepts(s, call.transact, call.signers)
    ensures MakeBound(ix.proof, call.transact)
    ensures call.transact == ix.transact.(messages := call.transact.messages)
  {
    MakeProves(accounts, ix, call);
    NonZeroPair(ix.proof.sourceInputHash, ZERO);
    NonZeroPair(Commitment(ix.proof.change), Commitment(ix.proof.orderUtxo));
    TransactBinds(s, call.transact, call.signers, [ix.proof.sourceInputHash, ZERO],
                  [Commitment(ix.proof.change), Commitment(ix.proof.orderUtxo)], ix.proof.privateTxBlinding);
  }

  /** The order and the taker's note are spent and the two payouts appended, in order. */
  predicate CoreBound(core: TakeCircuit.Core, privateTxHash: Fe, tx: Transact) {
    && core.Check(privateTxHash)
    && core.order.expiry == Num(tx.expiry)
    && RealInputs(tx) == [Commitment(core.orderUtxo), Commitment(core.takerIn)]
    && RealOutputs(tx) == [Commitment(core.sourceOutput), Commitment(core.destinationOutput)]
  }

  lemma CoreBinds(s: State, tx: Transact, signers: set<Fe>, core: TakeCircuit.Core, privateTxHash: Fe)
    requires Accepts(s, tx, signers) && core.Check(privateTxHash) && tx.privateTxHash == Enc(privateTxHash)
    requires core.order.expiry == Num(tx.expiry)
    ensures CoreBound(core, privateTxHash, tx)
  {
    var inputs := [Commitment(core.orderUtxo), Commitment(core.takerIn)];
    var outputs := [Commitment(core.sourceOutput), Commitment(core.destinationOutput)];
    NonZeroPair(inputs[0], inputs[1]);
    NonZeroPair(outputs[0], outputs[1]);
    TransactBinds(s, tx, signers, inputs, outputs, core.privateTxBlinding);
  }

  /** A derived take also runs inside the order's window, on the first nullifier it was proved for. */
  predicate TakeBound(now: i64, w: TakeCircuit.Witness, tx: Transact) {
    && CoreBound(w.core, w.privateTxHash, tx)
    && CheckWithinWindow(now, tx.expiry)
    && w.core.order.takeMode == Num(0)
    && tx.inputs != [] && tx.inputs[0] == Enc(w.firstNullifier)
    && TakeCircuit.TransactionBlindings(w.firstNullifier, TakeCircuit.BlindingSeed(w.core.orderUtxo.blinding),
         w.core.privateTxBlinding, w.core.sourceOutput.blinding, w.core.destinationOutput.blinding)
  }

  lemma TakeBinds(s: State, accounts: seq<Account>, ix: TakeIx, call: PoolCall)
    requires TakeCall(s.now, accounts, Some(ix)) == Ok(call)
    requires Accepts(s, call.transact, call.signers)
    ensures call.transact == ix.transact && TakeBound(s.now, ix.proof, ix.transact)
  {
    var w := ix.proof;
    PublicInputBinds(ix.transact.privateTxHash, ix.transact.expiry, ix.transact.inputs[0],
                     w.privateTxHash, w.core.order.expiry, w.firstNullifier);
    CoreBinds(s, ix.transact, call.signers, w.core, w.privateTxHash);
  }

  /** An encrypted take also belongs to the committed taker, and its last output carries exactly
      the proof's ciphertext. */
  predicate VerifiableTakeBound(now: i64, w: VerifiableTakeCircuit.Witness, tx: Transact) {
    && CoreBound(w.core, w.privateTxHash, tx)
    && CheckWithinWindow(now, tx.expiry)
    && w.core.order.takeMode == Num(1)
    && w.core.takerIn.owner == Poseidon([w.core.order.takerPkFe, w.takerNullifierPk])
    && tx.outputs != [] && tx.outputs[|tx.outputs| - 1].data == Some(w.Ciphertext())
  }

  lemma VerifiableTakeBinds(s: State, accounts: seq<Account>, ix: VerifiableTakeIx, call: PoolCall)
    requires VerifiableTakeCall(s.now, accounts, Some(ix)) == Ok(call)
    requires Accepts(s, call.transact, call.signers)
    ensures call.transact == ix.transact && VerifiableTakeBound(s.now, ix.proof, ix.transact)
  {
    var w := ix.proof;
    var ciphertext := ix.transact.outputs[|ix.transact.outputs| - 1].data.value;
    PublicInputBinds(ix.transact.privateTxHash, ix.transact.expiry, Enc(BytesHash(ciphertext)),
                     w.privateTxHash, w.core.order.expiry, BytesHash(w.Ciphertext()));
    EncInjective(BytesHash(ciphertext), BytesHash(w.Ciphertext()));
    CoreBinds(s, ix.transact, call.signers, w.core, w.privateTxHash);
  }

  /** A cancel spends the order and appends the refund, after the order's window, signed by the
      key that opens the maker's owner hash. */
  predicate CancelBound(now: i64, accounts: seq<Account>, expiry: u64, w: CancelCircuit.Witness, tx: Transact) {
    && CheckAfterWindow(now, expiry)
    && |accounts| >= 2 && accounts[1].isSigner
    && CancelCircuit.Define(Poseidon([w.privateTxHash, w.order.expiry, w.makerOwnerPkField]), w)
    && w.order.expiry == Num(expiry)
    && w.makerOwnerPkField == SolanaIdentity(accounts[1].address)
    && RealInputs(tx) == [Commitment(w.orderUtxo)]
    && RealOutputs(tx) == [Commitment(w.sourceOutput)]
  }

  lemma CancelBinds(s: State, accounts: seq<Account>, ix: CancelIx, call: PoolCall)
    requires CancelCall(s.now, accounts, Some(ix)) == Ok(call)
    requires Accepts(s, call.transact, call.signers)
    ensures call.transact == ix.transact && CancelBound(s.now, accounts, ix.orderExpiry, ix.proof, ix.transact)
  {
    var w := ix.proof;
    PublicInputBinds(ix.transact.privateTxHash, ix.orderExpiry, Enc(SolanaIdentity(accounts[1].address)),
                     w.privateTxHash, w.order.expiry, w.makerOwnerPkField);
    EncInjective(SolanaIdentity(accounts[1].address), w.makerOwnerPkField);
    NonZeroSingle(Commitment(w.orderUtxo));
    NonZeroSingle(Commitment(w.sourceOutput));
    TransactBinds(s, ix.transact, call.signers, [Commitment(w.orderUtxo)], [Commitment(w.sourceOutput)],
                  w.privateTxBlinding);
  }

  /** An escrow appends the change and the escrow note. */
  predicate EscrowBound(w: EscrowCircuits.EscrowWitness, tx: Transact) {
    && EscrowCircuits.IsEscrowUtxo(w.terms, w.escrowUtxo)
    && OrderTermsCircuit.IsPlainUtxo(w.change, w.terms.ownerHash, w.escrowUtxo.asset)
    && RealInputs(tx) == (if w.sourceInputHash == ZERO then [] else [w.sourceInputHash])
    && RealOutputs(tx) == [Commitment(w.change), Commitment(w.escrowUtxo)]
  }

  lemma EscrowProves(accounts: seq<Account>, ix: EscrowIx, call: PoolCall)
    requires EscrowCall(accounts, Some(ix)) == Ok(call)
    ensures call.transact == ix.transact && EscrowCircuits.IsEscrowUtxo(ix.proof.terms, ix.proof.escrowUtxo)
    ensures OrderTermsCircuit.IsPlainUtxo(ix.proof.change, ix.proof.terms.ownerHash, ix.proof.escrowUtxo.asset)
    ensures ix.transact.privateTxHash
            == Enc(PrivateTxHash([ix.proof.sourceInputHash, ZERO],
                                 [Commitment(ix.proof.change), Commitment(ix.proof.escrowUtxo)],
                                 ix.proof.privateTxBlinding))
  {
    DecIsEnc(ix.transact.privateTxHash);
  }

  lemma EscrowBinds(s: State, accounts: seq<Account>, ix: EscrowIx, call: PoolCall)
    requires EscrowCall(accounts, Some(ix)) == Ok(call)
    requires Accepts(s, call.transact, call.signers)
    ensures call.transact == ix.transact && EscrowBound(ix.proof, ix.transact)
  {
    EscrowProves(accounts, ix, call);
    NonZeroPair(ix.proof.sourceInputHash, ZERO);
    NonZeroPair(Commitment(ix.proof.change), Commitment(ix.proof.escrowUtxo));
    TransactBinds(s, call.transact, call.signers, [ix.proof.sourceInputHash, ZERO],
                  [Commitment(ix.proof.change), Commitment(ix.proof.escrowUtxo)], ix.proof.privateTxBlinding);
  }

  /** A withdraw spends the escrow note and appends the refund, after the unlock time, signed by
      the key that opens the committed owner hash. */
  predicate WithdrawBound(now: i64, accounts: seq<Account>, unlock: u64, w: EscrowCircuits.WithdrawWitness,
                          tx: Transact) {
    && CheckAfterWindow(now, unlock)
    && |accounts| >= 2 && accounts[1].isSigner
    && EscrowCircuits.DefineWithdraw(Poseidon([w.privateTxHash, w.terms.unlock, w.ownerPkField]), w)
    && w.terms.unlock == Num(unlock)
    && w.ownerPkField == SolanaIdentity(accounts[1].address)
    && RealInputs(tx) == [Commitment(w.escrowUtxo)]
    && RealOutputs(tx) == [Commitment(w.sourceOutput)]
  }

  lemma WithdrawBinds(s: State, accounts: seq<Account>, ix: WithdrawIx, call: PoolCall)
    requires WithdrawCall(s.now, accounts, Some(ix)) == Ok(call)
    requires Accepts(s, call.transact, call.signers)
    ensures call.transact == ix.transact && WithdrawBound(s.now, accounts, ix.unlockTimestamp, ix.proof, ix.transact)
  {
    var w := ix.proof;
    PublicInputBinds(ix.transact.privateTxHash, ix.unlockTimestamp, Enc(SolanaIdentity(accounts[1].address)),
                     w.privateTxHash, w.terms.unlock, w.ownerPkField);
    EncInjective(SolanaIdentity(accounts[1].address), w.ownerPkField);
    NonZeroSingle(Commitment(w.escrowUtxo));
    NonZeroSingle(Commitment(w.sourceOutput));
    TransactBinds(s, ix.transact, call.signers, [Commitment(w.escrowUtxo)], [Commitment(w.sourceOutput)],
                  w.privateTxBlinding);
  }
}
