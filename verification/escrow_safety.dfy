/** Timelock safety over whole runs: an escrow note leaves the pool exactly once, after its unlock
    time, to its creator. */
module EscrowSafety {
  import opened Ideal
  import opened Notes
  import opened Pool
  import opened Runtime
  import opened EscrowProgram
  import opened EscrowSdk
  import opened Runs
  import opened Binding
  import Circuits = EscrowCircuits

  /** Creator and unlock time are fixed by the committed terms, the viewing key excepted. */
  lemma EscrowLeafIffOpening(a: EscrowUtxo, s: u16, b: EscrowUtxo, t: u16)
    ensures a.Leaf(s) == b.Leaf(t) <==>
              && s == t && a.blinding == b.blinding && a.asset.asset == b.asset.asset && a.amount == b.amount
              && a.terms.unlockTimestamp == b.terms.unlockTimestamp
              && a.terms.creator.signing == b.terms.creator.signing
              && a.terms.creator.nullifierPk == b.terms.creator.nullifierPk
  {
    if a.Leaf(s) == b.Leaf(t) {
      TermsOfData(a.terms.Witness(), b.terms);
      OwnerHashOpens(a.terms.creator, OwnerField(b.terms.creator.signing), b.terms.creator.nullifierPk);
    }
  }

  lemma TermsOfData(terms: Circuits.EscrowTerms, e: EscrowTerms)
    requires terms.DataHash() == e.Witness().DataHash()
    ensures terms == e.Witness()
  {
    assert terms.DataHash().args[0] == e.Witness().DataHash().args[0];
    assert terms.DataHash().args[1] == e.Witness().DataHash().args[1];
  }

  /** The step returns escrow `e` of tree `t`: after its unlock time, signed by the creator, the
      whole amount in one plain note of the creator's. */
  predicate Returns(now: i64, step: Step, e: EscrowUtxo, t: u16) {
    match step
    case Withdraw(accounts, ix) =>
      var refund := ix.proof.sourceOutput;
      && 0 <= now && now > e.terms.unlockTimestamp
      && |accounts| >= 2 && accounts[1].isSigner && e.terms.creator.signing == Ed25519(accounts[1].address)
      && RealInputs(ix.transact) == [e.Leaf(t)]
      && RealOutputs(ix.transact) == [Commitment(refund)]
      && refund
         == PlainNote(e.terms.creator.OwnerHash(), refund.treeId, AssetField(e.asset.asset), Num(e.amount),
                      refund.blinding)
    case _ => false
  }

  lemma BoundWithdrawReturns(now: i64, accounts: seq<Account>, ix: WithdrawIx, e: EscrowUtxo, t: u16)
    requires WithdrawBound(now, accounts, ix.unlockTimestamp, ix.proof, ix.transact)
    ensures Consumes(ix.transact, e.Note(t)) <==> Returns(now, Withdraw(accounts, ix), e, t)
  {
    ConsumesIsRealInput(ix.transact, e.Note(t));
    if ix.proof.escrowUtxo == e.Note(t) {
      TermsOfData(ix.proof.terms, e.terms);
      OwnerHashOpens(e.terms.creator, SolanaIdentity(accounts[1].address), ix.proof.nullifierPk);
    }
  }

  lemma WithdrawReturns(s: State, step: Step, s': State, e: EscrowUtxo, t: u16)
    requires Next(s, step, s') && step.Withdraw?
    ensures Spends(s.now, step, e.Note(t)) <==> Returns(s.now, step, e, t)
  {
    var accounts, ix := step.accounts, step.withdraw;
    WithdrawBinds(s, accounts, ix, StepCall(s.now, step).value);
    BoundWithdrawReturns(s.now, accounts, ix, e, t);
  }

  /** A returning step spends the escrow note; only an escrow step can spend it otherwise. */
  lemma ReturnsSpends(s: State, step: Step, s': State, e: EscrowUtxo, t: u16)
    requires Next(s, step, s')
    ensures Returns(s.now, step, e, t) <==> Spends(s.now, step, e.Note(t)) && !step.Escrow?
  {
    StepOnNote(s, step, s', e.Note(t), ESCROW_AUTHORITY);
    AuthoritiesDiffer();
    if step.Withdraw? {
      WithdrawReturns(s, step, s', e, t);
    }
  }

  /** The escrow nullifiers that appear from `s` to `s'` are those of the escrows the step returns. */
  ghost predicate PublishesReturned(s: State, step: Step, s': State) {
    forall e: EscrowUtxo, t: u16 ::
      (e.SpentBy(t) in s'.spent && e.SpentBy(t) !in s.spent) <==> Returns(s.now, step, e, t)
  }

  /** Any step but an escrow publishes exactly the nullifiers of the escrows it returns. */
  lemma PublishedIffReturned(s: State, step: Step, s': State)
    requires Next(s, step, s') && !step.Escrow?
    ensures PublishesReturned(s, step, s')
  {
    forall e: EscrowUtxo, t: u16
      ensures (e.SpentBy(t) in s'.spent && e.SpentBy(t) !in s.spent) <==> Returns(s.now, step, e, t)
    {
      StepOnNote(s, step, s', e.Note(t), ESCROW_AUTHORITY);
      ReturnsSpends(s, step, s', e, t);
    }
  }

  ghost predicate IsEscrowNote(u: Utxo) {
    exists e: EscrowUtxo, t: u16 :: u == e.Note(t)
  }

  /** The guard: no note an escrow step spends is an escrow note. */
  ghost predicate SpendsNoEscrow(step: Step) {
    step.Escrow? ==>
      forall i :: 0 <= i < |step.escrow.transact.proof.inputs| && step.escrow.transact.proof.inputs[i].Spend? ==>
        !IsEscrowNote(step.escrow.transact.proof.inputs[i].utxo)
  }

  /** A caller's sufficient check: every note an escrow step spends carries no data. */
  predicate SpendsPlainNotes(step: Step) {
    step.Escrow? ==>
      forall i :: 0 <= i < |step.escrow.transact.proof.inputs| && step.escrow.transact.proof.inputs[i].Spend? ==>
        step.escrow.transact.proof.inputs[i].utxo.dataHash == ZERO
  }

  lemma PlainNotesAreNoEscrows(step: Step)
    requires SpendsPlainNotes(step)
    ensures SpendsNoEscrow(step)
  {
  }

  function ReturnMarks(states: seq<State>, steps: seq<Step>, e: EscrowUtxo, t: u16): (marks: seq<bool>)
    requires |states| == |steps| + 1
    ensures |marks| == |steps|
  {
    seq(|steps|, i requires 0 <= i < |steps| => Returns(states[i].now, steps[i], e, t))
  }

  /** The escrow is returned by exactly one step if its nullifier was published, and by none otherwise. */
  predicate ReturnedOnce(states: seq<State>, steps: seq<Step>, e: EscrowUtxo, t: u16)
    requires |states| == |steps| + 1
  {
    Count(ReturnMarks(states, steps, e, t)) == if e.SpentBy(t) in states[|steps|].spent then 1 else 0
  }

  lemma ReturnedOnceIff(states: seq<State>, steps: seq<Step>, e: EscrowUtxo, t: u16)
    requires Run(states, steps) && states[0].spent == {}
    ensures ReturnedOnce(states, steps, e, t)
            <==> forall i :: 0 <= i < |steps| && Spends(states[i].now, steps[i], e.Note(t)) ==> !steps[i].Escrow?
  {
    var returned, spent := ReturnMarks(states, steps, e, t), SpendMarks(states, steps, e.Note(t));
    forall i | 0 <= i < |steps|
      ensures returned[i] <==> spent[i] && !steps[i].Escrow?
    {
      ReturnsSpends(states[i], steps[i], states[i + 1], e, t);
    }
    SpentOnce(states, steps, e.Note(t), ESCROW_AUTHORITY);
    CountOfImplied(returned, spent);
  }

  lemma GuardedEscrowSpendsNoEscrow(s: State, step: Step, s': State, e: EscrowUtxo, t: u16)
    requires Next(s, step, s') && step.Escrow? && SpendsNoEscrow(step)
    ensures !Spends(s.now, step, e.Note(t))
  {
    CarriedIsForwarded(s.now, step, e.Note(t));
  }

  /** What the guard says of the transaction an escrow step carries. */
  lemma ConsumingBreaksGuard(step: Step, e: EscrowUtxo, t: u16)
    requires step.Escrow? && Consumes(step.escrow.transact, e.Note(t))
    ensures !SpendsNoEscrow(step)
  {
  }

  /** The step breaks the guard: it spends the escrow's note for good and returns nothing. */
  ghost predicate SpendsUnreturned(s: State, step: Step, s': State, e: EscrowUtxo, t: u16) {
    && !SpendsNoEscrow(step) && !Returns(s.now, step, e, t)
    && Spends(s.now, step, e.Note(t)) && !Live(s', e.Note(t))
  }

  lemma ConsumingEscrowSpendsUnreturned(s: State, step: Step, s': State, e: EscrowUtxo, t: u16)
    requires Next(s, step, s') && step.Escrow? && Consumes(step.escrow.transact, e.Note(t)) && e.SpentBy(t) in s'.spent
    ensures SpendsUnreturned(s, step, s', e, t)
  {
    CarriedIsForwarded(s.now, step, e.Note(t));
    ConsumingBreaksGuard(step, e, t);
  }

  lemma UnguardedConsumes(step: Step) returns (e: EscrowUtxo, t: u16)
    requires !SpendsNoEscrow(step)
    ensures step.Escrow? && Consumes(step.escrow.transact, e.Note(t))
  {
    var inputs := step.escrow.transact.proof.inputs;
    var k :| 0 <= k < |inputs| && inputs[k].Spend? && IsEscrowNote(inputs[k].utxo);
    e, t :| inputs[k].utxo == e.Note(t);
  }

  lemma UnguardedEscrowSpendsEscrow(s: State, step: Step, s': State) returns (e: EscrowUtxo, t: u16)
    requires Next(s, step, s') && !SpendsNoEscrow(step)
    ensures step.Escrow? && Spends(s.now, step, e.Note(t))
  {
    e, t := UnguardedConsumes(step);
    CarriedIsForwarded(s.now, step, e.Note(t));
  }

  /** In a run from an empty nullifier set, every escrow is returned exactly once or still locked,
      after its unlock time, on its creator's signature and to its creator -- if and only if no
      escrow step of the run spends an escrow note. */
  lemma EscrowsReturnExactlyOnce(states: seq<State>, steps: seq<Step>)
    requires Run(states, steps) && states[0].spent == {}
    ensures (forall e: EscrowUtxo, t: u16 :: ReturnedOnce(states, steps, e, t))
            <==> forall i :: 0 <= i < |steps| ==> SpendsNoEscrow(steps[i])
  {
    if forall i :: 0 <= i < |steps| ==> SpendsNoEscrow(steps[i]) {
      forall e: EscrowUtxo, t: u16
        ensures ReturnedOnce(states, steps, e, t)
      {
        ReturnedOnceIff(states, steps, e, t);
        forall i | 0 <= i < |steps| && steps[i].Escrow?
          ensures !Spends(states[i].now, steps[i], e.Note(t))
        {
          GuardedEscrowSpendsNoEscrow(states[i], steps[i], states[i + 1], e, t);
        }
      }
    } else {
      var i :| 0 <= i < |steps| && !SpendsNoEscrow(steps[i]);
      var e, t := UnguardedEscrowSpendsEscrow(states[i], steps[i], states[i + 1]);
      ReturnedOnceIff(states, steps, e, t);
    }
  }

  /** If every escrow step of the run spends only notes without data, every escrow is returned exactly
      once or still locked. */
  lemma PlainEscrowsReturn(states: seq<State>, steps: seq<Step>, e: EscrowUtxo, t: u16)
    requires Run(states, steps) && states[0].spent == {}
    requires forall i :: 0 <= i < |steps| ==> SpendsPlainNotes(steps[i])
    ensures ReturnedOnce(states, steps, e, t)
  {
    forall i | 0 <= i < |steps|
      ensures SpendsNoEscrow(steps[i])
    {
      PlainNotesAreNoEscrows(steps[i]);
    }
    EscrowsReturnExactlyOnce(states, steps);
  }
}
