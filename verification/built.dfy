/** Transactions built around a pool proof, and when the pool accepts them. */
module Built {
  import opened Ideal
  import opened Notes
  import opened Pool
  import opened Runtime
  import opened Runs
  import opened Order
  import opened Binding
  import opened Settlement
  import TakeCircuit
  import CancelCircuit

  /* Value conservation from the circuits alone. */

  lemma TotalOfOne(x: Utxo, a: Fe)
    ensures Total([x], a) == if x.asset == a then Amount(x.amount) else 0
  {
    assert [x][1..] == [];
  }

  lemma TotalOfTwo(x: Utxo, y: Utxo, a: Fe)
    ensures Total([x, y], a) == Total([x], a) + Total([y], a)
  {
    assert [x, y][1..] == [y];
    TotalOfOne(x, a);
  }

  /** Both takes conserve every asset by their own equalities, without the pool's balance check. */
  lemma TakeConserves(core: TakeCircuit.Core, privateTxHash: Fe, a: Fe)
    requires core.Check(privateTxHash)
    ensures Total([core.orderUtxo, core.takerIn], a) == Total([core.sourceOutput, core.destinationOutput], a)
  {
    TotalOfTwo(core.orderUtxo, core.takerIn, a);
    TotalOfTwo(core.sourceOutput, core.destinationOutput, a);
    TotalOfOne(core.orderUtxo, a);
    TotalOfOne(core.takerIn, a);
    TotalOfOne(core.sourceOutput, a);
    TotalOfOne(core.destinationOutput, a);
  }

  /** So does a cancel. */
  lemma CancelConserves(w: CancelCircuit.Witness, publicInputHash: Fe, a: Fe)
    requires CancelCircuit.Define(publicInputHash, w)
    ensures Total([w.orderUtxo], a) == Total([w.sourceOutput], a)
  {
    TotalOfOne(w.orderUtxo, a);
    TotalOfOne(w.sourceOutput, a);
  }

  /* Transactions built around a pool proof. */

  /** The transaction whose public fields are those of its proof. */
  function BuildTransact(expiry: u64, proof: TransactProof): Transact
    requires |proof.ciphertexts| == |proof.outputs|
  {
    Transact(expiry,
             Enc(PrivateTxHash(InputHashes(proof.inputs), OutputHashes(proof.outputs), proof.privateTxBlinding)),
             proof,
             seq(|proof.inputs|, i requires 0 <= i < |proof.inputs| => Enc(proof.inputs[i].Published())),
             seq(|proof.outputs|, i requires 0 <= i < |proof.outputs| =>
               TransactOutput(Enc(proof.outputs[i].Hash()), proof.ciphertexts[i])),
             proof.messages)
  }

  /** The pool's own side conditions on a proof. */
  predicate Provable(s: State, proof: TransactProof, signers: set<Fe>) {
    && |proof.ciphertexts| == |proof.outputs|
    && (forall i :: 0 <= i < |proof.inputs| ==> SpendAllowed(s, proof.inputs[i], signers))
    && Fresh(s, proof.inputs)
    && (forall i :: 0 <= i < |proof.outputs| && proof.outputs[i].Create? ==>
          proof.outputs[i].utxo.treeId == Num(proof.outputTree) && IsU64(proof.outputs[i].utxo.amount))
    && Balanced(proof)
  }

  lemma BuiltIsAccepted(s: State, expiry: u64, proof: TransactProof, signers: set<Fe>)
    requires Provable(s, proof, signers) && 0 <= s.now && s.now <= expiry
    ensures Accepts(s, BuildTransact(expiry, proof), signers)
  {
  }

  /** An accepted settlement instruction whose transaction spends the order note settles the order. */
  lemma ConsumedIsSettled(s: State, step: Step, s': State, o: OrderUtxo, t: u16)
    requires Next(s, step, s') && (step.Take? || step.VerifiableTake? || step.Cancel?)
    requires Consumes(Carried(step), o.Note(t))
    ensures Settles(s.now, step, o, t)
  {
    CarriedIsForwarded(s.now, step, o.Note(t));
    SpentIffSettled(s, step, s', o, t);
  }

  /* Signers. */

  /** The processor's own authority is among the accounts it forwards, and signs only through it. */
  predicate Forwards(accounts: seq<Account>, from: nat, authority: Address) {
    from <= |accounts| && NoAuthoritySigns(accounts) && Forwarded(accounts[from..], authority)
  }

  lemma AuthorityIsSigner(accounts: seq<Account>, from: nat, authority: Address)
    requires Forwards(accounts, from, authority)
    ensures SolanaIdentity(authority) in CallSigners(accounts[from..], authority)
  {
    var forwarded := accounts[from..];
    var i :| 0 <= i < |forwarded| && forwarded[i].address == authority;
    assert forwarded[i] in forwarded;
  }

  /** The accounts of a refund: a writable payer, the owner's signature, and the authority. */
  predicate RefundAccounts(accounts: seq<Account>, owner: Address, authority: Address) {
    && |accounts| >= 2 && IsPayer(accounts)
    && accounts[1].isSigner && accounts[1].address == owner
    && Forwards(accounts, 2, authority)
  }

  lemma OwnerAccounts(owner: Address, authority: Address) returns (accounts: seq<Account>)
    requires !IsAuthority(owner)
    ensures RefundAccounts(accounts, owner, authority)
  {
    var signer := Account(owner, true, true);
    accounts := [signer, signer, Account(authority, false, false)];
    assert accounts[2..] == [accounts[2]];
  }

  /* Locking: a source note in, the change and the locked note out. */

  // The note that is spent, with the identity and the secret that open its owner, and the dummy
  // that pads the inputs to two; and what the last output publishes for its recipient. With a gap, a
  // padding output stands between change and locked note.
  datatype Source = Source(
    note: Utxo, signer: Fe, secret: Fe, padding: Fe, gap: bool, ciphertext: Option<seq<Byte>>)
  {
    function Nullified(): Fe {
      Nullifier(Commitment(note), note.blinding, secret)
    }
  }

  function LockOutputs(source: Source, change: Utxo, locked: Utxo): (outputs: seq<Output>)
    ensures |outputs| >= 2
  {
    if source.gap then [Create(change), PaddingOutput, Create(locked)] else [Create(change), Create(locked)]
  }

  function LockProof(source: Source, change: Utxo, locked: Utxo, tree: u16, txBlinding: Fe,
                     messages: seq<Message>): TransactProof {
    var outputs := LockOutputs(source, change, locked);
    TransactProof([Spend(source.note, source.signer, source.secret), PaddingInput(source.padding)],
                  outputs, tree, txBlinding, seq(|outputs| - 1, _ => None) + [source.ciphertext], messages)
  }

  /** The source note is appended, unspent, its owner signs, and it covers the two new notes. */
  predicate Covers(s: State, signers: set<Fe>, source: Source, change: Utxo, locked: Utxo) {
    && Commitment(source.note) in s.leaves && source.Nullified() !in s.spent
    && source.note.owner == Poseidon([source.signer, NullifierKey(source.secret)]) && Authorized(source.signer, signers)
    && PaddingNullifier(source.padding) !in s.spent
    && source.note.asset == change.asset == locked.asset
    && IsU64(source.note.amount) && IsU64(change.amount) && IsU64(locked.amount)
    && source.note.amount.n == change.amount.n + locked.amount.n
  }

  /** The gap is invisible: the proof's transaction hash is that of the two notes alone. */
  lemma LockHashes(source: Source, change: Utxo, locked: Utxo, tree: u16, txBlinding: Fe, messages: seq<Message>)
    ensures var proof := LockProof(source, change, locked, tree, txBlinding, messages);
            PrivateTxHash(InputHashes(proof.inputs), OutputHashes(proof.outputs), txBlinding)
            == PrivateTxHash([Commitment(source.note), ZERO], [Commitment(change), Commitment(locked)], txBlinding)
  {
    var proof := LockProof(source, change, locked, tree, txBlinding, messages);
    var c, l, ins := Commitment(change), Commitment(locked), [Commitment(source.note), ZERO];
    assert InputHashes(proof.inputs) == ins;
    if source.gap {
      assert OutputHashes(proof.outputs) == [c] + [ZERO] + [l];
      PaddingIsInvisible([c], [ZERO], [l], ins, txBlinding);
      assert [c] + [l] == [c, l];
    } else {
      assert OutputHashes(proof.outputs) == [c, l];
    }
  }

  lemma LockNotes(source: Source, change: Utxo, locked: Utxo, tree: u16, txBlinding: Fe, messages: seq<Message>)
    ensures var proof := LockProof(source, change, locked, tree, txBlinding, messages);
            SpentNotes(proof.inputs) == [source.note] && CreatedNotes(proof.outputs) == [change, locked]
  {
    var proof := LockProof(source, change, locked, tree, txBlinding, messages);
    var last := [Create(locked)];
    assert proof.inputs[1..] == [proof.inputs[1]] && SpentNotes([proof.inputs[1]]) == [];
    assert last[1..] == [] && CreatedNotes(last) == [locked];
    if source.gap {
      assert proof.outputs[1..] == [PaddingOutput] + last && ([PaddingOutput] + last)[1..] == last;
      assert CreatedNotes(proof.outputs[1..]) == [locked];
    } else {
      assert proof.outputs[1..] == last;
    }
  }

  lemma LockIsBalanced(source: Source, change: Utxo, locked: Utxo, tree: u16, txBlinding: Fe, messages: seq<Message>)
    requires source.note.asset == change.asset == locked.asset
    requires IsU64(source.note.amount) && IsU64(change.amount) && IsU64(locked.amount)
    requires source.note.amount.n == change.amount.n + locked.amount.n
    ensures Balanced(LockProof(source, change, locked, tree, txBlinding, messages))
  {
    LockNotes(source, change, locked, tree, txBlinding, messages);
    var asset := source.note.asset;
    TotalOfOne(source.note, asset);
    TotalOfTwo(change, locked, asset);
    TotalOfOne(change, asset);
    TotalOfOne(locked, asset);
  }

  /** A lock over a covering source is one the pool accepts at any nonnegative time. */
  lemma LockIsAccepted(s: State, signers: set<Fe>, source: Source, change: Utxo, locked: Utxo, tree: u16,
                       txBlinding: Fe, messages: seq<Message>)
    requires Covers(s, signers, source, change, locked) && change.treeId == Num(tree) == locked.treeId && s.now >= 0
    ensures Accepts(s, BuildTransact(U64_MAX, LockProof(source, change, locked, tree, txBlinding, messages)), signers)
  {
    LockIsBalanced(source, change, locked, tree, txBlinding, messages);
    BuiltIsAccepted(s, U64_MAX, LockProof(source, change, locked, tree, txBlinding, messages), signers);
  }

  lemma LockEffects(s: State, source: Source, change: Utxo, locked: Utxo, tree: u16, txBlinding: Fe,
                    messages: seq<Message>)
    ensures var tx := BuildTransact(U64_MAX, LockProof(source, change, locked, tree, txBlinding, messages));
            && Commitment(change) in Apply(s, tx).leaves && Commitment(locked) in Apply(s, tx).leaves
            && source.Nullified() in Apply(s, tx).spent && Consumes(tx, source.note)
  {
    var proof := LockProof(source, change, locked, tree, txBlinding, messages);
    LockHashes(source, change, locked, tree, txBlinding, messages);
    NonZeroPair(Commitment(change), Commitment(locked));
    var two := [Commitment(change), Commitment(locked)];
    assert NonZero(OutputHashes(proof.outputs)) == two;
    assert two[0] in two && two[1] in two;
    assert proof.inputs[0].Published() == source.Nullified() && proof.inputs[0].utxo == source.note;
  }

  /** A live note of an authority covers any two notes of its asset that share out its amount, when the
      authority signs. */
  lemma AuthorityNoteCovers(s: State, accounts: seq<Account>, authority: Address, u: Utxo, change: Utxo, locked: Utxo)
    returns (source: Source)
    requires Forwards(accounts, 1, authority) && Live(s, u) && u.owner == AuthorityOwner(authority)
    requires u.asset == change.asset == locked.asset && IsU64(u.amount) && IsU64(change.amount) && IsU64(locked.amount)
    requires u.amount.n == change.amount.n + locked.amount.n
    ensures Covers(s, CallSigners(accounts[1..], authority), source, change, locked)
    ensures source.note == u && source.Nullified() == AuthorityNullifier(u)
  {
    var padding, _ := FreshPadding(s.spent, 0);
    source := Source(u, SolanaIdentity(authority), ZERO, padding, false, None);
    AuthorityIsSigner(accounts, 1, authority);
  }

  /** Some padding nullifier is always unspent. */
  lemma {:induction false} FreshPadding(spent: set<Fe>, from: nat) returns (padding: Fe, k: nat)
    ensures PaddingNullifier(padding) !in spent && k >= from && padding == OutputBlinding(ZERO, ZERO, k)
    decreases spent
  {
    padding, k := OutputBlinding(ZERO, ZERO, from), from;
    if PaddingNullifier(padding) in spent {
      padding, k := FreshPadding(spent - {PaddingNullifier(padding)}, from + 1);
    }
  }

  /* Refunds: an authority's note in, one plain note of its value out. */

  function RefundProof(u: Utxo, authority: Address, refund: Utxo, tree: u16, txBlinding: Fe): TransactProof {
    TransactProof([Spend(u, SolanaIdentity(authority), ZERO)], [Create(refund)], tree, txBlinding, [None], [])
  }

  lemma RefundHashes(u: Utxo, authority: Address, refund: Utxo, tree: u16, txBlinding: Fe)
    ensures var proof := RefundProof(u, authority, refund, tree, txBlinding);
            PrivateTxHash(InputHashes(proof.inputs), OutputHashes(proof.outputs), txBlinding)
            == PrivateTxHash([Commitment(u)], [Commitment(refund)], txBlinding)
  {
    var proof := RefundProof(u, authority, refund, tree, txBlinding);
    assert InputHashes(proof.inputs) == [Commitment(u)] && OutputHashes(proof.outputs) == [Commitment(refund)];
  }

  lemma RefundIsBalanced(u: Utxo, authority: Address, refund: Utxo, tree: u16, txBlinding: Fe)
    requires refund.asset == u.asset && refund.amount == u.amount
    ensures Balanced(RefundProof(u, authority, refund, tree, txBlinding))
  {
    var proof := RefundProof(u, authority, refund, tree, txBlinding);
    assert proof.inputs[1..] == [] && proof.outputs[1..] == [];
    assert SpentNotes(proof.inputs) == [u] && CreatedNotes(proof.outputs) == [refund];
    TotalOfOne(u, u.asset);
    TotalOfOne(refund, u.asset);
  }

  /** A refund of a live authority-owned note is one the pool accepts at any nonnegative time. */
  lemma RefundIsAccepted(s: State, signers: set<Fe>, u: Utxo, authority: Address, refund: Utxo, tree: u16,
                         txBlinding: Fe)
    requires Live(s, u) && u.owner == AuthorityOwner(authority) && SolanaIdentity(authority) in signers && s.now >= 0
    requires refund.asset == u.asset && refund.amount == u.amount && IsU64(u.amount) && refund.treeId == Num(tree)
    ensures var tx := BuildTransact(U64_MAX, RefundProof(u, authority, refund, tree, txBlinding));
            Accepts(s, tx, signers) && Consumes(tx, u)
  {
    var proof := RefundProof(u, authority, refund, tree, txBlinding);
    RefundIsBalanced(u, authority, refund, tree, txBlinding);
    BuiltIsAccepted(s, U64_MAX, proof, signers);
    assert proof.inputs[0].utxo == u;
  }
}
