/** The shielded pool as the two programs rely on it: a clock, the appended commitments, the
    published nullifiers, and the contract of one `transact`.

    A proof is modelled by its witness.  The pool's proof opens every input and output, so
    `Accepts` is the set of constraints the programs rely on: inputs appended and unspent, each
    owner signing, value conserved per asset, and the private transaction hash, the ciphertexts
    and the messages bound to what is forwarded.
 */
module Pool {
  import opened Ideal

  datatype Message = Message(viewTag: seq<Byte>, data: seq<Byte>)
  datatype TransactOutput = TransactOutput(utxoHash: Bytes32, data: Option<seq<Byte>>)

  // A padding input publishes a nullifier and a padding output nothing; both hash to zero.
  datatype Input =
    | Spend(utxo: Utxo, signer: Fe, secret: Fe)
    | PaddingInput(padding: Fe)
  {
    function Hash(): Fe {
      if Spend? then Commitment(utxo) else ZERO
    }
    function Published(): Fe {
      if Spend? then Nullifier(Commitment(utxo), utxo.blinding, secret) else PaddingNullifier(padding)
    }
  }

  datatype Output = Create(utxo: Utxo) | PaddingOutput
  {
    function Hash(): Fe {
      if Create? then Commitment(utxo) else ZERO
    }
  }

  datatype TransactProof = TransactProof(
    inputs: seq<Input>, outputs: seq<Output>, outputTree: u16, privateTxBlinding: Fe,
    ciphertexts: seq<Option<seq<Byte>>>, messages: seq<Message>)

  // TransactIxData.
  datatype Transact = Transact(
    expiry: u64, privateTxHash: Bytes32, proof: TransactProof,
    inputs: seq<Bytes32>, outputs: seq<TransactOutput>, messages: seq<Message>)

  datatype State = State(now: i64, leaves: set<Fe>, spent: set<Fe>)

  function InputHashes(inputs: seq<Input>): (r: seq<Fe>)
    ensures |r| == |inputs|
  {
    seq(|inputs|, i requires 0 <= i < |inputs| => inputs[i].Hash())
  }

  function OutputHashes(outputs: seq<Output>): (r: seq<Fe>)
    ensures |r| == |outputs|
  {
    seq(|outputs|, i requires 0 <= i < |outputs| => outputs[i].Hash())
  }

  /** The commitments a transaction spends and appends, without padding. */
  function RealInputs(tx: Transact): seq<Fe> {
    NonZero(InputHashes(tx.proof.inputs))
  }

  function RealOutputs(tx: Transact): seq<Fe> {
    NonZero(OutputHashes(tx.proof.outputs))
  }

  function Published(inputs: seq<Input>): set<Fe> {
    set i | 0 <= i < |inputs| :: inputs[i].Published()
  }

  /* Value. */

  function Amount(f: Fe): nat {
    if f.Num? then f.n else 0
  }

  /** The value of asset `a` in a list of notes. */
  function Total(notes: seq<Utxo>, a: Fe): nat {
    if notes == [] then 0
    else (if notes[0].asset == a then Amount(notes[0].amount) else 0) + Total(notes[1..], a)
  }

  function SpentNotes(inputs: seq<Input>): seq<Utxo> {
    if inputs == [] then []
    else (if inputs[0].Spend? then [inputs[0].utxo] else []) + SpentNotes(inputs[1..])
  }

  function CreatedNotes(outputs: seq<Output>): seq<Utxo> {
    if outputs == [] then []
    else (if outputs[0].Create? then [outputs[0].utxo] else []) + CreatedNotes(outputs[1..])
  }

  predicate SameTotals(ins: seq<Utxo>, outs: seq<Utxo>) {
    && (forall i :: 0 <= i < |ins| ==> Total(ins, ins[i].asset) == Total(outs, ins[i].asset))
    && (forall i :: 0 <= i < |outs| ==> Total(ins, outs[i].asset) == Total(outs, outs[i].asset))
  }

  predicate Balanced(proof: TransactProof) {
    SameTotals(SpentNotes(proof.inputs), CreatedNotes(proof.outputs))
  }

  /* The contract of `transact`. */

  /** The owner signs: a Solana key as a signer of the call, any other key inside the pool's proof. */
  predicate Authorized(signer: Fe, signers: set<Fe>) {
    signer in signers || signer.P256Identity?
  }

  predicate SpendAllowed(s: State, input: Input, signers: set<Fe>) {
    input.Spend? ==>
      && Commitment(input.utxo) in s.leaves
      && input.utxo.owner == Poseidon([input.signer, NullifierKey(input.secret)])
      && Authorized(input.signer, signers)
      && IsU64(input.utxo.amount)
  }

  predicate InputsMatch(tx: Transact) {
    && |tx.inputs| == |tx.proof.inputs|
    && forall i :: 0 <= i < |tx.inputs| ==> tx.inputs[i] == Enc(tx.proof.inputs[i].Published())
  }

  predicate OutputsMatch(tx: Transact) {
    && |tx.outputs| == |tx.proof.outputs| == |tx.proof.ciphertexts|
    && (forall i :: 0 <= i < |tx.outputs| ==> tx.outputs[i].utxoHash == Enc(tx.proof.outputs[i].Hash()))
    && (forall i :: 0 <= i < |tx.outputs| ==> tx.outputs[i].data == tx.proof.ciphertexts[i])
    && tx.messages == tx.proof.messages
  }

  predicate Fresh(s: State, inputs: seq<Input>) {
    && (forall i :: 0 <= i < |inputs| ==> inputs[i].Published() !in s.spent)
    && (forall i, j :: 0 <= i < j < |inputs| ==> inputs[i].Published() != inputs[j].Published())
  }

  predicate Accepts(s: State, tx: Transact, signers: set<Fe>) {
    && 0 <= s.now && s.now <= tx.expiry
    && InputsMatch(tx)
    && OutputsMatch(tx)
    && tx.privateTxHash
       == Enc(PrivateTxHash(InputHashes(tx.proof.inputs), OutputHashes(tx.proof.outputs), tx.proof.privateTxBlinding))
    && (forall i :: 0 <= i < |tx.proof.inputs| ==> SpendAllowed(s, tx.proof.inputs[i], signers))
    && Fresh(s, tx.proof.inputs)
    && (forall i :: 0 <= i < |tx.proof.outputs| && tx.proof.outputs[i].Create? ==>
          tx.proof.outputs[i].utxo.treeId == Num(tx.proof.outputTree) && IsU64(tx.proof.outputs[i].utxo.amount))
    && Balanced(tx.proof)
  }

  function Apply(s: State, tx: Transact): State {
    s.(leaves := s.leaves + (set h | h in RealOutputs(tx)),
       spent := s.spent + Published(tx.proof.inputs))
  }

  /* What a transaction does to one note. */

  predicate Consumes(tx: Transact, u: Utxo) {
    exists i :: 0 <= i < |tx.proof.inputs| && tx.proof.inputs[i].Spend? && tx.proof.inputs[i].utxo == u
  }

  lemma ConsumesIsRealInput(tx: Transact, u: Utxo)
    ensures Consumes(tx, u) <==> Commitment(u) in RealInputs(tx)
  {
    var hashes := InputHashes(tx.proof.inputs);
    NonZeroMembers(hashes, Commitment(u));
    if Consumes(tx, u) {
      var i :| 0 <= i < |tx.proof.inputs| && tx.proof.inputs[i].Spend? && tx.proof.inputs[i].utxo == u;
      assert hashes[i] == Commitment(u);
    }
  }

  /** A note whose owner key and nullifier secret are known has one nullifier, and an accepted
      transaction publishes it exactly when it spends the note. */
  lemma PublishedIffConsumed(s: State, tx: Transact, signers: set<Fe>, u: Utxo, identity: Fe, secret: Fe)
    requires Accepts(s, tx, signers)
    requires u.owner == Poseidon([identity, NullifierKey(secret)])
    ensures Nullifier(Commitment(u), u.blinding, secret) in Published(tx.proof.inputs) <==> Consumes(tx, u)
    ensures Consumes(tx, u) ==> Authorized(identity, signers) && Commitment(u) in s.leaves
                                && Nullifier(Commitment(u), u.blinding, secret) !in s.spent
  {
    var inputs := tx.proof.inputs;
    if Consumes(tx, u) {
      var i :| 0 <= i < |inputs| && inputs[i].Spend? && inputs[i].utxo == u;
      assert SpendAllowed(s, inputs[i], signers);
      assert u.owner.args[0] == inputs[i].signer && u.owner.args[1] == NullifierKey(inputs[i].secret);
      assert inputs[i].Published() == Nullifier(Commitment(u), u.blinding, secret);
    }
  }
}
