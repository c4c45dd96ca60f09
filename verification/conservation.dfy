/** Value over a step: what every accepted step keeps per asset, and what a lock step must spend. */
module Conservation {
  import opened Ideal
  import opened Notes
  import opened Pool
  import opened Runtime
  import opened SwapProgram
  import opened EscrowProgram
  import opened Runs
  import opened Binding
  import opened Built
  import EscrowCircuits

  lemma {:induction false} TotalOfOthers(notes: seq<Utxo>, a: Fe)
    requires forall i :: 0 <= i < |notes| ==> notes[i].asset != a
    ensures Total(notes, a) == 0
  {
    if notes != [] {
      TotalOfOthers(notes[1..], a);
    }
  }

  /** The pool compares totals for the assets that occur; so they agree for all. */
  lemma BalancedForAll(proof: TransactProof, a: Fe)
    requires Balanced(proof)
    ensures Total(SpentNotes(proof.inputs), a) == Total(CreatedNotes(proof.outputs), a)
  {
    var ins, outs := SpentNotes(proof.inputs), CreatedNotes(proof.outputs);
    if forall i :: 0 <= i < |ins| ==> ins[i].asset != a {
      TotalOfOthers(ins, a);
      if forall i :: 0 <= i < |outs| ==> outs[i].asset != a {
        TotalOfOthers(outs, a);
      }
    }
  }

  /** What the proof of a carried transaction says is what the pool was shown. */
  lemma CarriedProof(now: i64, step: Step)
    requires !step.Tick? && !step.Deposit? && StepCall(now, step).Ok?
    ensures StepCall(now, step).value.transact.proof == Carried(step).proof
  {
    if step.Take? || step.VerifiableTake? {
      TakesForward(now, step);
    } else if step.Cancel? || step.Withdraw? {
      RefundsForward(now, step);
    } else {
      LocksForward(now, step);
    }
  }

  /** Every accepted step creates, of every asset, exactly what it spends. */
  lemma StepConserves(s: State, step: Step, s': State, a: Fe)
    requires Next(s, step, s') && !step.Tick? && !step.Deposit?
    ensures Total(SpentNotes(Carried(step).proof.inputs), a) == Total(CreatedNotes(Carried(step).proof.outputs), a)
  {
    var call := AcceptedStep(s, step, s');
    CarriedProof(s.now, step);
    BalancedForAll(call.transact.proof, a);
  }

  lemma ForwardedDeadline(now: i64, step: Step)
    requires !step.Tick? && !step.Deposit? && StepCall(now, step).Ok?
    ensures StepCall(now, step).value.transact.expiry == Carried(step).expiry
  {
  }

  /** No step is accepted at a negative time or after the deadline of the transaction it carries. */
  lemma StepInTime(s: State, step: Step, s': State)
    requires Next(s, step, s') && !step.Tick? && !step.Deposit?
    ensures 0 <= s.now && s.now <= Carried(step).expiry
  {
    var call := AcceptedStep(s, step, s');
    ForwardedDeadline(s.now, step);
  }

  /* The nonzero hashes of a transaction are the commitments of its notes. */

  function Commitments(notes: seq<Utxo>): (hashes: seq<Fe>)
    ensures |hashes| == |notes|
  {
    seq(|notes|, i requires 0 <= i < |notes| => Commitment(notes[i]))
  }

  lemma {:induction false} HashesOfSpent(inputs: seq<Input>)
    ensures NonZero(InputHashes(inputs)) == Commitments(SpentNotes(inputs))
  {
    if inputs != [] {
      HashesOfSpent(inputs[1..]);
      assert InputHashes(inputs)[1..] == InputHashes(inputs[1..]);
    }
  }

  lemma {:induction false} HashesOfCreated(outputs: seq<Output>)
    ensures NonZero(OutputHashes(outputs)) == Commitments(CreatedNotes(outputs))
  {
    if outputs != [] {
      HashesOfCreated(outputs[1..]);
      assert OutputHashes(outputs)[1..] == OutputHashes(outputs[1..]);
    }
  }

  /** A transaction that creates the change and the locked note, of one asset, spends one note of that asset
      worth both: the source the proof names, which a lock cannot do without. */
  predicate Funds(tx: Transact, sourceInputHash: Fe, source: Utxo, change: Utxo, locked: Utxo) {
    && SpentNotes(tx.proof.inputs) == [source] && Commitment(source) == sourceInputHash
    && CreatedNotes(tx.proof.outputs) == [change, locked]
    && source.asset == change.asset == locked.asset
    && IsU64(source.amount) && IsU64(change.amount) && IsU64(locked.amount) && locked.amount.n > 0
    && source.amount.n == change.amount.n + locked.amount.n
  }

  lemma {:induction false} SpentIsInput(inputs: seq<Input>, u: Utxo) returns (i: nat)
    requires u in SpentNotes(inputs)
    ensures i < |inputs| && inputs[i].Spend? && inputs[i].utxo == u
  {
    i := 0;
    if !(inputs[0].Spend? && inputs[0].utxo == u) {
      var later := SpentIsInput(inputs[1..], u);
      i := later + 1;
    }
  }

  lemma {:induction false} CreatedIsOutput(outputs: seq<Output>, u: Utxo) returns (i: nat)
    requires u in CreatedNotes(outputs)
    ensures i < |outputs| && outputs[i].Create? && outputs[i].utxo == u
  {
    i := 0;
    if !(outputs[0].Create? && outputs[0].utxo == u) {
      var later := CreatedIsOutput(outputs[1..], u);
      i := later + 1;
    }
  }

  lemma CreatedIsU64(s: State, tx: Transact, signers: set<Fe>, u: Utxo)
    requires Accepts(s, tx, signers) && u in CreatedNotes(tx.proof.outputs)
    ensures IsU64(u.amount)
  {
    var i := CreatedIsOutput(tx.proof.outputs, u);
  }

  lemma SpentIsAllowed(s: State, tx: Transact, signers: set<Fe>, u: Utxo)
    requires Accepts(s, tx, signers) && u in SpentNotes(tx.proof.inputs)
    ensures Commitment(u) in s.leaves && IsU64(u.amount)
  {
    var i := SpentIsInput(tx.proof.inputs, u);
    assert SpendAllowed(s, tx.proof.inputs[i], signers);
  }

  lemma TwoCommitments(notes: seq<Utxo>, a: Utxo, b: Utxo)
    requires Commitments(notes) == [Commitment(a), Commitment(b)]
    ensures notes == [a, b]
  {
    assert |notes| == 2;
    assert Commitments(notes)[0] == Commitment(notes[0]) && Commitments(notes)[1] == Commitment(notes[1]);
  }

  lemma LockCreates(tx: Transact, change: Utxo, locked: Utxo)
    requires RealOutputs(tx) == [Commitment(change), Commitment(locked)]
    ensures CreatedNotes(tx.proof.outputs) == [change, locked]
  {
    HashesOfCreated(tx.proof.outputs);
    TwoCommitments(CreatedNotes(tx.proof.outputs), change, locked);
  }

  lemma LockSpends(tx: Transact, sourceInputHash: Fe, spent: seq<Utxo>)
    requires RealInputs(tx) == (if sourceInputHash == ZERO then [] else [sourceInputHash])
    requires spent == SpentNotes(tx.proof.inputs) && spent != []
    ensures spent == [spent[0]] && Commitment(spent[0]) == sourceInputHash
  {
    HashesOfSpent(tx.proof.inputs);
    assert Commitments(spent)[0] == Commitment(spent[0]);
  }

  lemma LockIsFunded(s: State, tx: Transact, signers: set<Fe>, sourceInputHash: Fe, change: Utxo, locked: Utxo)
    returns (source: Utxo)
    requires Accepts(s, tx, signers) && change.asset == locked.asset && locked.amount != ZERO
    requires RealInputs(tx) == (if sourceInputHash == ZERO then [] else [sourceInputHash])
    requires RealOutputs(tx) == [Commitment(change), Commitment(locked)]
    ensures Funds(tx, sourceInputHash, source, change, locked) && Commitment(source) in s.leaves
  {
    var spent, asset := SpentNotes(tx.proof.inputs), locked.asset;
    LockCreates(tx, change, locked);
    assert [change, locked][0] == change && [change, locked][1] == locked;
    CreatedIsU64(s, tx, signers, change);
    CreatedIsU64(s, tx, signers, locked);
    TotalOfTwo(change, locked, asset);
    TotalOfOne(change, asset);
    TotalOfOne(locked, asset);
    BalancedForAll(tx.proof, asset);
    assert Total(spent, asset) == change.amount.n + locked.amount.n;
    LockSpends(tx, sourceInputHash, spent);
    source := spent[0];
    TotalOfOne(source, asset);
    SpentIsAllowed(s, tx, signers, source);
  }

  /** No make locks value from nothing: an accepted make spends exactly one real note, an appended one of
      the order's asset, worth the change and the order together. */
  lemma MakeIsFunded(s: State, accounts: seq<Account>, ix: MakeIx, s': State) returns (source: Utxo)
    requires Next(s, Make(accounts, ix), s')
    ensures Funds(ix.transact, ix.proof.sourceInputHash, source, ix.proof.change, ix.proof.orderUtxo)
    ensures Commitment(source) in s.leaves
  {
    var call := AcceptedStep(s, Make(accounts, ix), s');
    MakeBinds(s, accounts, ix, call);
    source := LockIsFunded(s, call.transact, call.signers, ix.proof.sourceInputHash, ix.proof.change,
                           ix.proof.orderUtxo);
  }

  /** Nor does an escrow step. */
  lemma EscrowIsFunded(s: State, accounts: seq<Account>, ix: EscrowIx, s': State) returns (source: Utxo)
    requires Next(s, Escrow(accounts, ix), s')
    ensures Funds(ix.transact, ix.proof.sourceInputHash, source, ix.proof.change, ix.proof.escrowUtxo)
    ensures Commitment(source) in s.leaves
  {
    var call := AcceptedStep(s, Escrow(accounts, ix), s');
    EscrowBinds(s, accounts, ix, call);
    source := LockIsFunded(s, call.transact, call.signers, ix.proof.sourceInputHash, ix.proof.change,
                           ix.proof.escrowUtxo);
  }
}
