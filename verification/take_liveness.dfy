/** The takes the SDK builds inside the window are accepted and settle their order. */
module TakeLiveness {
  import opened Ideal
  import opened Notes
  import opened Pool
  import opened Runtime
  import opened SwapProgram
  import opened Runs
  import opened Order
  import opened ProofInputs
  import opened SwapSdk
  import opened Settlement
  import opened Built
  import TakeCircuit
  import VerifiableTakeCircuit

  /** The accounts of a take: a writable payer, the order authority, and the taker's signature. */
  predicate TakeAccounts(accounts: seq<Account>, taker: Fe) {
    && IsPayer(accounts) && Forwards(accounts, 1, ORDER_AUTHORITY)
    && Authorized(taker, CallSigners(accounts[1..], ORDER_AUTHORITY))
  }

  /** A taker with a P-256 key needs no account of its own; one with a Solana key must sign. */
  lemma TakerSignature(accounts: seq<Account>, taker: PublicKey)
    requires IsPayer(accounts) && Forwards(accounts, 1, ORDER_AUTHORITY)
    ensures taker.P256? ==> TakeAccounts(accounts, OwnerField(taker))
    ensures taker.Ed25519? ==>
              (TakeAccounts(accounts, OwnerField(taker)) <==>
               OwnerField(taker) in CallSigners(accounts[1..], ORDER_AUTHORITY))
  {
  }

  // The taker's side of a take: its address, of either kind of key, and its nullifier secret.
  datatype Taker = Taker(address: ShieldedAddress, secret: Fe)
  {
    function Signer(): Fe {
      OwnerField(address.signing)
    }
    predicate Holds() {
      address.nullifierPk == NullifierKey(secret)
    }
  }

  /** The pool's proof of a take over the notes of `core`. */
  function TakeProof(core: TakeCircuit.Core, taker: Taker, outputTree: u16,
                     ciphertext: Option<seq<Byte>>): TransactProof {
    TransactProof([Spend(core.orderUtxo, SolanaIdentity(ORDER_AUTHORITY), ORDER_SECRET),
                   Spend(core.takerIn, taker.Signer(), taker.secret)],
                  [Create(core.sourceOutput), Create(core.destinationOutput)],
                  outputTree, core.privateTxBlinding, [None, ciphertext], [])
  }

  lemma TakeHashes(core: TakeCircuit.Core, taker: Taker, outputTree: u16, ciphertext: Option<seq<Byte>>)
    ensures var proof := TakeProof(core, taker, outputTree, ciphertext);
            && PrivateTxHash(InputHashes(proof.inputs), OutputHashes(proof.outputs), proof.privateTxBlinding)
               == CoreTxHash(core)
            && SpentNotes(proof.inputs) == [core.orderUtxo, core.takerIn]
            && CreatedNotes(proof.outputs) == [core.sourceOutput, core.destinationOutput]
  {
    var proof := TakeProof(core, taker, outputTree, ciphertext);
    assert InputHashes(proof.inputs) == [Commitment(core.orderUtxo), Commitment(core.takerIn)];
    assert OutputHashes(proof.outputs) == [Commitment(core.sourceOutput), Commitment(core.destinationOutput)];
    assert proof.inputs[1..] == [proof.inputs[1]] && proof.outputs[1..] == [proof.outputs[1]];
    assert SpentNotes([proof.inputs[1]]) == [core.takerIn];
    assert CreatedNotes([proof.outputs[1]]) == [core.destinationOutput];
  }

  /** Both notes a take spends are appended and unspent, and the taker can open its own. */
  predicate Spendable(s: State, core: TakeCircuit.Core, taker: Taker) {
    && core.orderUtxo.owner == OrderOwner() && Live(s, core.orderUtxo)
    && core.takerIn.owner == Poseidon([taker.Signer(), NullifierKey(taker.secret)])
    && Commitment(core.takerIn) in s.leaves
    && Nullifier(Commitment(core.takerIn), core.takerIn.blinding, taker.secret) !in s.spent
  }

  /** The payouts go to the transaction's output tree and every amount is a u64. */
  predicate WellFormed(core: TakeCircuit.Core, outputTree: u16) {
    && core.sourceOutput.treeId == Num(outputTree) && core.destinationOutput.treeId == Num(outputTree)
    && IsU64(core.orderUtxo.amount)
  }

  lemma TakeIsBalanced(core: TakeCircuit.Core, taker: Taker, outputTree: u16, ciphertext: Option<seq<Byte>>)
    requires core.Check(CoreTxHash(core))
    ensures Balanced(TakeProof(core, taker, outputTree, ciphertext))
  {
    TakeHashes(core, taker, outputTree, ciphertext);
    forall a: Fe
      ensures Total([core.orderUtxo, core.takerIn], a) == Total([core.sourceOutput, core.destinationOutput], a)
    {
      TakeConserves(core, CoreTxHash(core), a);
    }
  }

  lemma TakeInputsAllowed(s: State, accounts: seq<Account>, core: TakeCircuit.Core, taker: Taker, outputTree: u16,
                          ciphertext: Option<seq<Byte>>)
    requires core.Check(CoreTxHash(core)) && WellFormed(core, outputTree)
    requires Spendable(s, core, taker) && TakeAccounts(accounts, taker.Signer())
    ensures var inputs := TakeProof(core, taker, outputTree, ciphertext).inputs;
            && (forall i :: 0 <= i < |inputs| ==>
                  SpendAllowed(s, inputs[i], CallSigners(accounts[1..], ORDER_AUTHORITY)))
            && Fresh(s, inputs)
  {
    AuthorityIsSigner(accounts, 1, ORDER_AUTHORITY);
    assert core.orderUtxo != core.takerIn;
  }

  lemma TakeIsProvable(s: State, accounts: seq<Account>, core: TakeCircuit.Core, taker: Taker, outputTree: u16,
                          ciphertext: Option<seq<Byte>>)
    requires core.Check(CoreTxHash(core)) && WellFormed(core, outputTree)
    requires Spendable(s, core, taker) && TakeAccounts(accounts, taker.Signer())
    ensures Provable(s, TakeProof(core, taker, outputTree, ciphertext), CallSigners(accounts[1..], ORDER_AUTHORITY))
  {
    TakeInputsAllowed(s, accounts, core, taker, outputTree, ciphertext);
    TakeIsBalanced(core, taker, outputTree, ciphertext);
  }

  lemma TakeConsumesOrder(expiry: u64, core: TakeCircuit.Core, taker: Taker, outputTree: u16,
                          ciphertext: Option<seq<Byte>>)
    ensures Consumes(BuildTransact(expiry, TakeProof(core, taker, outputTree, ciphertext)), core.orderUtxo)
  {
    var tx := BuildTransact(expiry, TakeProof(core, taker, outputTree, ciphertext));
    assert tx.proof.inputs[0].utxo == core.orderUtxo;
  }

  /** The transaction of a take of `core` under deadline `expiry`. */
  function TakeTransact(expiry: u64, core: TakeCircuit.Core, taker: Taker, outputTree: u16,
                        ciphertext: Option<seq<Byte>>): Transact {
    BuildTransact(expiry, TakeProof(core, taker, outputTree, ciphertext))
  }

  /** The processor forwards a derived take whose proof matches its public input. */
  lemma TakePassesChecks(now: i64, accounts: seq<Account>, taker: Fe, ix: TakeIx, h: Fe)
    requires TakeAccounts(accounts, taker) && CheckWithinWindow(now, ix.transact.expiry) && ix.transact.inputs != []
    requires TakePublicInput(ix.transact.privateTxHash, ix.transact.expiry, ix.transact.inputs[0]) == Some(h)
    requires TakeCircuit.Define(h, ix.proof)
    ensures TakeCall(now, accounts, Some(ix)) == Ok(PoolCall(ix.transact, CallSigners(accounts[1..], ORDER_AUTHORITY)))
  {
  }

  /** The transaction of a take over spendable notes is one the pool accepts. */
  lemma TakeTransactAccepted(s: State, accounts: seq<Account>, core: TakeCircuit.Core, expiry: u64, taker: Taker,
                             outputTree: u16, ciphertext: Option<seq<Byte>>)
    requires core.Check(CoreTxHash(core)) && WellFormed(core, outputTree) && Spendable(s, core, taker)
    requires TakeAccounts(accounts, taker.Signer()) && CheckWithinWindow(s.now, expiry)
    ensures Accepts(s, TakeTransact(expiry, core, taker, outputTree, ciphertext),
                    CallSigners(accounts[1..], ORDER_AUTHORITY))
  {
    TakeIsProvable(s, accounts, core, taker, outputTree, ciphertext);
    BuiltIsAccepted(s, expiry, TakeProof(core, taker, outputTree, ciphertext),
                    CallSigners(accounts[1..], ORDER_AUTHORITY));
  }

  lemma TakeWitnessForwarded(now: i64, accounts: seq<Account>, w: TakeCircuit.Witness, h: Fe, expiry: u64,
                             taker: Taker, outputTree: u16)
    requires TakeCircuit.Define(h, w) && TakePublicInput(Enc(w.privateTxHash), expiry, Enc(w.firstNullifier)) == Some(h)
    requires w.privateTxHash == CoreTxHash(w.core) && w.firstNullifier == AuthorityNullifier(w.core.orderUtxo)
    requires TakeAccounts(accounts, taker.Signer()) && CheckWithinWindow(now, expiry)
    ensures var ix := TakeIx(w, TakeTransact(expiry, w.core, taker, outputTree, None));
            TakeCall(now, accounts, Some(ix)) == Ok(PoolCall(ix.transact, CallSigners(accounts[1..], ORDER_AUTHORITY)))
  {
    TakeHashes(w.core, taker, outputTree, None);
    TakePassesChecks(now, accounts, taker.Signer(), TakeIx(w, TakeTransact(expiry, w.core, taker, outputTree, None)),
                     h);
  }

  lemma ForwardedTakeLands(s: State, accounts: seq<Account>, ix: TakeIx, signers: set<Fe>)
    requires TakeCall(s.now, accounts, Some(ix)) == Ok(PoolCall(ix.transact, signers))
    requires Accepts(s, ix.transact, signers) && NoAuthoritySigns(accounts)
    ensures Next(s, Take(accounts, ix), Apply(s, ix.transact))
  {
  }

  /** A provable derived-take witness over spendable notes, inside its window, is accepted. */
  lemma TakeWitnessLands(s: State, accounts: seq<Account>, w: TakeCircuit.Witness, h: Fe, expiry: u64, taker: Taker,
                         outputTree: u16)
    requires TakeCircuit.Define(h, w) && TakePublicInput(Enc(w.privateTxHash), expiry, Enc(w.firstNullifier)) == Some(h)
    requires w.privateTxHash == CoreTxHash(w.core) && w.firstNullifier == AuthorityNullifier(w.core.orderUtxo)
    requires WellFormed(w.core, outputTree) && Spendable(s, w.core, taker)
    requires TakeAccounts(accounts, taker.Signer()) && CheckWithinWindow(s.now, expiry)
    ensures var ix := TakeIx(w, TakeTransact(expiry, w.core, taker, outputTree, None));
            Next(s, Take(accounts, ix), Apply(s, ix.transact))
  {
    TakeWitnessForwarded(s.now, accounts, w, h, expiry, taker, outputTree);
    TakeTransactAccepted(s, accounts, w.core, expiry, taker, outputTree, None);
    ForwardedTakeLands(s, accounts, TakeIx(w, TakeTransact(expiry, w.core, taker, outputTree, None)),
                       CallSigners(accounts[1..], ORDER_AUTHORITY));
  }

  /** The taker's input note is appended and unspent. */
  predicate HoldsTakerNote(s: State, p: TakeParams, taker: Taker) {
    var takerIn := CheckedCore(p, taker.address).takerIn;
    Commitment(takerIn) in s.leaves && Nullifier(Commitment(takerIn), takerIn.blinding, taker.secret) !in s.spent
  }

  /** What the SDK's checks give about the notes of a take it builds. */
  lemma CheckedCoreIsSpendable(s: State, p: TakeParams, taker: Taker)
    requires taker.Holds() && Live(s, p.orderUtxo.Note(p.inputTree))
    requires HoldsTakerNote(s, p, taker)
    ensures WellFormed(CheckedCore(p, taker.address), p.outputTree)
    ensures Spendable(s, CheckedCore(p, taker.address), taker)
  {
  }

  /** Accepted and a spend of the order note, so a settlement of it. */
  lemma TakeWitnessSettles(s: State, accounts: seq<Account>, o: OrderUtxo, t: u16, w: TakeCircuit.Witness,
                           taker: Taker, outputTree: u16)
    requires w.core.orderUtxo == o.Note(t)
    requires var ix := TakeIx(w, TakeTransact(o.terms.expiry, w.core, taker, outputTree, None));
             Next(s, Take(accounts, ix), Apply(s, ix.transact))
    ensures Settles(s.now, Take(accounts, TakeIx(w, TakeTransact(o.terms.expiry, w.core, taker, outputTree, None))), o,
                    t)
  {
    var ix := TakeIx(w, TakeTransact(o.terms.expiry, w.core, taker, outputTree, None));
    TakeConsumesOrder(o.terms.expiry, w.core, taker, outputTree, None);
    ConsumedIsSettled(s, Take(accounts, ix), Apply(s, ix.transact), o, t);
  }

  /** The SDK's derived-take inputs, and the facts about them the processor needs. */
  lemma TakeInputsOf(p: TakeParams, taker: ShieldedAddress) returns (h: Fe, w: TakeCircuit.Witness)
    requires p.ToTakeInputs().Ok? && p.orderUtxo.sourceAmount != 0 && p.orderUtxo.terms.destinationAmount != 0
    requires p.takerIn.ownerAddress == Some(taker)
    ensures p.ToTakeInputs() == Ok(Inputs(h, w)) && w.core == CheckedCore(p, taker)
    ensures TakeCircuit.Define(h, w) && w.privateTxHash == CoreTxHash(w.core)
    ensures w.firstNullifier == p.orderUtxo.SpentBy(p.inputTree)
    ensures TakePublicInput(Enc(w.privateTxHash), p.orderUtxo.terms.expiry, Enc(w.firstNullifier)) == Some(h)
  {
    TakeComplete(p);
    h, w := p.ToTakeInputs().value.publicInputHash, p.ToTakeInputs().value.proof;
  }

  /** Whenever the SDK builds a derived take for a live order inside its window and the taker holds
      its note, the instruction is accepted and settles the order. */
  lemma TakeLands(s: State, accounts: seq<Account>, p: TakeParams, taker: Taker) returns (h: Fe, w: TakeCircuit.Witness)
    requires p.ToTakeInputs().Ok? && p.orderUtxo.sourceAmount != 0 && p.orderUtxo.terms.destinationAmount != 0
    requires p.takerIn.ownerAddress == Some(taker.address) && taker.Holds() && TakeAccounts(accounts, taker.Signer())
    requires Live(s, p.orderUtxo.Note(p.inputTree)) && CheckWithinWindow(s.now, p.orderUtxo.terms.expiry)
    requires HoldsTakerNote(s, p, taker)
    ensures p.ToTakeInputs() == Ok(Inputs(h, w))
    ensures var ix := TakeIx(w, TakeTransact(p.orderUtxo.terms.expiry, w.core, taker, p.outputTree, None));
            && Next(s, Take(accounts, ix), Apply(s, ix.transact))
            && Settles(s.now, Take(accounts, ix), p.orderUtxo, p.inputTree)
  {
    h, w := TakeInputsOf(p, taker.address);
    CheckedCoreIsSpendable(s, p, taker);
    TakeWitnessLands(s, accounts, w, h, p.orderUtxo.terms.expiry, taker, p.outputTree);
    TakeWitnessSettles(s, accounts, p.orderUtxo, p.inputTree, w, taker, p.outputTree);
  }

  /* The same for the encrypted take. */

  lemma VerifiableTakePassesChecks(now: i64, accounts: seq<Account>, taker: Fe, ix: VerifiableTakeIx, data: seq<Byte>,
                                   h: Fe)
    requires TakeAccounts(accounts, taker) && CheckWithinWindow(now, ix.transact.expiry)
    requires ix.transact.outputs != [] && ix.transact.outputs[|ix.transact.outputs| - 1].data == Some(data)
    requires VerifiableTakePublicInput(ix.transact.privateTxHash, ix.transact.expiry, data) == Result.Ok(h)
    requires VerifiableTakeCircuit.Define(h, ix.proof)
    ensures VerifiableTakeCall(now, accounts, Some(ix))
            == Ok(PoolCall(ix.transact, CallSigners(accounts[1..], ORDER_AUTHORITY)))
  {
  }

  lemma VerifiableTakeWitnessForwarded(now: i64, accounts: seq<Account>, w: VerifiableTakeCircuit.Witness, h: Fe,
                                       expiry: u64, data: seq<Byte>, taker: Taker, outputTree: u16)
    requires VerifiableTakeCircuit.Define(h, w)
    requires VerifiableTakePublicInput(Enc(w.privateTxHash), expiry, data) == Result.Ok(h)
    requires w.privateTxHash == CoreTxHash(w.core)
    requires TakeAccounts(accounts, taker.Signer()) && CheckWithinWindow(now, expiry)
    ensures var ix := VerifiableTakeIx(w, TakeTransact(expiry, w.core, taker, outputTree, Some(data)));
            VerifiableTakeCall(now, accounts, Some(ix))
            == Ok(PoolCall(ix.transact, CallSigners(accounts[1..], ORDER_AUTHORITY)))
  {
    TakeHashes(w.core, taker, outputTree, Some(data));
    VerifiableTakePassesChecks(now, accounts, taker.Signer(),
                               VerifiableTakeIx(w, TakeTransact(expiry, w.core, taker, outputTree,
                                                                Some(data))), data, h);
  }

  lemma ForwardedVerifiableTakeLands(s: State, accounts: seq<Account>, ix: VerifiableTakeIx, signers: set<Fe>)
    requires VerifiableTakeCall(s.now, accounts, Some(ix)) == Ok(PoolCall(ix.transact, signers))
    requires Accepts(s, ix.transact, signers) && NoAuthoritySigns(accounts)
    ensures Next(s, VerifiableTake(accounts, ix), Apply(s, ix.transact))
  {
  }

  lemma VerifiableTakeWitnessLands(s: State, accounts: seq<Account>, w: VerifiableTakeCircuit.Witness, h: Fe,
                                   expiry: u64, data: seq<Byte>, taker: Taker, outputTree: u16)
    requires VerifiableTakeCircuit.Define(h, w)
    requires VerifiableTakePublicInput(Enc(w.privateTxHash), expiry, data) == Result.Ok(h)
    requires w.privateTxHash == CoreTxHash(w.core)
    requires WellFormed(w.core, outputTree) && Spendable(s, w.core, taker)
    requires TakeAccounts(accounts, taker.Signer()) && CheckWithinWindow(s.now, expiry)
    ensures var ix := VerifiableTakeIx(w, TakeTransact(expiry, w.core, taker, outputTree, Some(data)));
            Next(s, VerifiableTake(accounts, ix), Apply(s, ix.transact))
  {
    VerifiableTakeWitnessForwarded(s.now, accounts, w, h, expiry, data, taker, outputTree);
    TakeTransactAccepted(s, accounts, w.core, expiry, taker, outputTree, Some(data));
    ForwardedVerifiableTakeLands(s, accounts,
                                 VerifiableTakeIx(w, TakeTransact(expiry, w.core, taker, outputTree,
                                                                  Some(data))), CallSigners(accounts[1..],
                                                                                            ORDER_AUTHORITY));
  }

  /** The data the SDK publishes in the last output of an encrypted take. */
  function PublishedCiphertext(p: TakeParams): seq<Byte> {
    DestinationCiphertext(p.orderUtxo.blinding, p.orderUtxo.terms.destinationMint, p.orderUtxo.terms.destinationAmount,
                          p.destinationOutput.blinding)
  }

  lemma VerifiableTakeInputsOf(p: TakeParams, taker: ShieldedAddress) returns (h: Fe, w: VerifiableTakeCircuit.Witness)
    requires p.ToVerifiableTakeInputs().Ok? && p.orderUtxo.sourceAmount != 0 && p.orderUtxo.terms.destinationAmount != 0
    requires p.takerIn.ownerAddress == Some(taker) && taker.signing == Ed25519(p.orderUtxo.terms.taker)
    ensures p.ToVerifiableTakeInputs() == Ok(Inputs(h, w)) && w.core == CheckedCore(p, taker)
    ensures VerifiableTakeCircuit.Define(h, w) && w.privateTxHash == CoreTxHash(w.core)
    ensures VerifiableTakePublicInput(Enc(w.privateTxHash), p.orderUtxo.terms.expiry, PublishedCiphertext(p))
            == Result.Ok(h)
  {
    VerifiableTakeComplete(p);
    h, w := p.ToVerifiableTakeInputs().value.publicInputHash, p.ToVerifiableTakeInputs().value.proof;
  }

  lemma VerifiableTakeWitnessSettles(s: State, accounts: seq<Account>, o: OrderUtxo, t: u16,
                                     w: VerifiableTakeCircuit.Witness, data: seq<Byte>, taker: Taker, outputTree: u16)
    requires w.core.orderUtxo == o.Note(t)
    requires var ix := VerifiableTakeIx(w, TakeTransact(o.terms.expiry, w.core, taker, outputTree, Some(data)));
             Next(s, VerifiableTake(accounts, ix), Apply(s, ix.transact))
    ensures var ix := VerifiableTakeIx(w, TakeTransact(o.terms.expiry, w.core, taker, outputTree, Some(data)));
            Settles(s.now, VerifiableTake(accounts, ix), o, t)
  {
    var ix := VerifiableTakeIx(w, TakeTransact(o.terms.expiry, w.core, taker, outputTree, Some(data)));
    TakeConsumesOrder(o.terms.expiry, w.core, taker, outputTree, Some(data));
    ConsumedIsSettled(s, VerifiableTake(accounts, ix), Apply(s, ix.transact), o, t);
  }

  /** Whenever the SDK builds an encrypted take for a live order inside its window and the taker the
      order names holds its note, the instruction is accepted and settles the order. */
  lemma VerifiableTakeLands(s: State, accounts: seq<Account>, p: TakeParams, taker: Taker)
    returns (h: Fe, w: VerifiableTakeCircuit.Witness)
    requires p.ToVerifiableTakeInputs().Ok? && p.orderUtxo.sourceAmount != 0 && p.orderUtxo.terms.destinationAmount != 0
    requires p.takerIn.ownerAddress == Some(taker.address) && taker.Holds() && TakeAccounts(accounts, taker.Signer())
    requires taker.address.signing == Ed25519(p.orderUtxo.terms.taker)
    requires Live(s, p.orderUtxo.Note(p.inputTree)) && CheckWithinWindow(s.now, p.orderUtxo.terms.expiry)
    requires HoldsTakerNote(s, p, taker)
    ensures p.ToVerifiableTakeInputs() == Ok(Inputs(h, w))
    ensures var tx := TakeTransact(p.orderUtxo.terms.expiry, w.core, taker, p.outputTree, Some(PublishedCiphertext(p)));
            var ix := VerifiableTakeIx(w, tx);
            && Next(s, VerifiableTake(accounts, ix), Apply(s, ix.transact))
            && Settles(s.now, VerifiableTake(accounts, ix), p.orderUtxo, p.inputTree)
  {
    h, w := VerifiableTakeInputsOf(p, taker.address);
    CheckedCoreIsSpendable(s, p, taker);
    VerifiableTakeWitnessLands(s, accounts, w, h, p.orderUtxo.terms.expiry, PublishedCiphertext(p), taker,
                               p.outputTree);
    VerifiableTakeWitnessSettles(s, accounts, p.orderUtxo, p.inputTree, w, PublishedCiphertext(p), taker, p.outputTree);
  }
}
