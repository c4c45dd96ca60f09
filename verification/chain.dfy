/** The programs running against the pool. The ledger carries the run it has been through, so each
    processor states what its step means for the orders and escrows in the pool, and the theorems
    over runs hold of the object after any sequence of calls. */
module Chain {
  import opened Ideal
  import opened Notes
  import opened Pool
  import opened Runtime
  import opened SwapProgram
  import opened EscrowProgram
  import opened EscrowCircuits
  import opened Runs
  import opened Acceptance
  import opened Binding
  import opened Order
  import opened Settlement
  import opened Accounting
  import opened EscrowSafety
  import EscrowSdk
  import MakeCircuit
  import TakeCircuit
  import VerifiableTakeCircuit
  import CancelCircuit

  class Ledger {
    var now: i64
    var leaves: set<Fe>
    var spent: set<Fe>
    ghost var states: seq<State>
    ghost var steps: seq<Step>

    function View(): State
      reads this
    {
      State(now, leaves, spent)
    }

    /** The ledger stands at the end of a run from an empty pool. */
    ghost predicate Valid()
      reads this
    {
      Run(states, steps) && states[0].leaves == {} && states[0].spent == {} && states[|steps|] == View()
    }

    /** The call was one step of the run. */
    twostate predicate Advanced(step: Step)
      reads this
    {
      && Next(old(View()), step, View())
      && states == old(states) + [View()] && steps == old(steps) + [step]
    }

    twostate predicate Unchanged()
      reads this
    {
      View() == old(View()) && states == old(states) && steps == old(steps)
    }

    constructor (start: i64)
      ensures Valid() && View() == State(start, {}, {}) && steps == []
    {
      now, leaves, spent := start, {}, {};
      states, steps := [State(start, {}, {})], [];
    }

    /** Appends the step that led to the present view to the run. */
    ghost method Record(step: Step)
      requires Run(states, steps) && Next(states[|steps|], step, View())
      modifies this`states, this`steps
      ensures Run(states, steps) && states == old(states) + [View()] && steps == old(steps) + [step]
    {
      Extend(states, steps, step, View());
      states, steps := states + [View()], steps + [step];
    }

    method AdvanceClock(to: i64)
      requires Valid()
      modifies this
      ensures Valid() && Advanced(Tick(to)) && View() == old(View()).(now := to)
    {
      now := to;
      this.Record(Tick(to));
    }

    method DepositNote(note: Utxo)
      requires Valid()
      modifies this
      ensures Valid() && Advanced(Deposit(note)) && View() == old(View()).(leaves := old(leaves) + {Commitment(note)})
    {
      leaves := leaves + {Commitment(note)};
      this.Record(Deposit(note));
    }

    /** The pool's `transact`, as the last act of `step`. */
    method Transact(call: PoolCall, ghost step: Step) returns (error: Option<Error>)
      requires Valid() && !step.Tick? && !step.Deposit? && Signable(step) && StepCall(now, step) == Ok(call)
      modifies this
      ensures Valid()
      ensures if error.None? then Advanced(step) else Unchanged()
      ensures error.None? <==> Accepts(old(View()), call.transact, call.signers)
      ensures error.Some? ==> error.value == RejectedByPool
    {
      if !Accepts(View(), call.transact, call.signers) {
        return Some(RejectedByPool);
      }
      AcceptedIsNext(View(), step, call);
      var after := Apply(View(), call.transact);
      leaves, spent := after.leaves, after.spent;
      this.Record(step);
      error := None;
    }

    /** A processor's last step: its own error, or the pool's answer. */
    method Forward(call: Result<PoolCall, Error>, ghost step: Step) returns (error: Option<Error>)
      requires Valid() && !step.Tick? && !step.Deposit? && Signable(step) && StepCall(now, step) == call
      modifies this
      ensures Valid()
      ensures if error.None? then Advanced(step) else Unchanged()
      ensures Outcome(old(View()), call) == if error.None? then Ok(View()) else Err(error.value)
    {
      match call
      case Err(e) => error := Some(e);
      case Ok(c) => error := this.Transact(c, step);
    }

    /** An ordinary transfer, which no authority signs, settles and returns nothing. */
    method TransferNotes(transact: Transact, signers: set<Fe>) returns (error: Option<Error>)
      requires Valid() && Signable(Transfer(transact, signers))
      modifies this
      ensures Valid()
      ensures if error.None? then Advanced(Transfer(transact, signers)) else Unchanged()
      ensures forall o: OrderUtxo, t: u16 :: o.SpentBy(t) in spent <==> o.SpentBy(t) in old(spent)
      ensures forall e: EscrowSdk.EscrowUtxo, t: u16 :: e.SpentBy(t) in spent <==> e.SpentBy(t) in old(spent)
    {
      ghost var before := View();
      error := this.Transact(PoolCall(transact, signers), Transfer(transact, signers));
      if error.None? {
        PublishedIffSettled(before, Transfer(transact, signers), View());
        PublishedIffReturned(before, Transfer(transact, signers), View());
      }
    }

    /** process_make_ix: verifies, writes the marker into the transaction's one message, forwards. An
        accepted make spends the proved source only, appends the change and the order, and, if it spends
        no order note, adds its order to the live ones and touches no other. */
    method ProcessMake(accounts: seq<Account>, data: Option<MakeIx>) returns (error: Option<Error>)
      requires Valid() && NoAuthoritySigns(accounts)
      modifies this
      ensures Valid()
      ensures if error.None? then data.Some? && Advanced(Make(accounts, data.value)) else Unchanged()
      ensures error.None? ==> IsPayer(accounts)
      ensures data.Some? && !AwaitsMarker(data.value.transact) ==> error.Some? && Unchanged()
      ensures Outcome(old(View()), MakeCall(accounts, data)) == if error.None? then Ok(View()) else Err(error.value)
      ensures error.None? ==> MakeBound(data.value.proof, data.value.transact)
      ensures error.None? ==> Commitment(data.value.proof.orderUtxo) in leaves
      ensures error.None? && SpendsNoOrder(Make(accounts, data.value)) ==>
                LiveNotes(Orders, View())
                == LiveNotes(Orders, old(View())) + Made(Orders, old(View()), Make(accounts, data.value))
    {
      ghost var before := View();
      var payer := NextSignerMut(accounts);
      if payer.Err? {
        return Some(payer.error);
      }
      var remaining := accounts[1..];
      if data.None? {
        return Some(InvalidInstructionData);
      }
      var proof, transact := data.value.proof, data.value.transact;
      var publicInput := Dec(transact.privateTxHash);
      if publicInput.None? || !MakeCircuit.Define(publicInput.value, proof) {
        return Some(ProofVerificationFailed);
      }
      if |transact.outputs| <= ORDER_OUTPUT_INDEX {
        return Some(InvalidInstructionData);
      }
      var orderUtxoHash := transact.outputs[ORDER_OUTPUT_INDEX].utxoHash;
      if |transact.messages| != 1 {
        return Some(InvalidMarkerMessage);
      }
      if transact.messages[0].data != [] {
        return Some(MarkerDataNotEmpty);
      }
      var marker := transact.messages[0].(data := MarkerBytes(orderUtxoHash, payer.value));
      transact := transact.(messages := [marker]);
      error := this.Forward(CpiTransactSigned(remaining, ORDER_AUTHORITY, transact), Make(accounts, data.value));
      if error.None? {
        MakeMeaning(before, accounts, data.value, View());
        RunSpentIsAppended(Orders, old(states), old(steps), |old(steps)|);
        MakeLocks(before, accounts, data.value, View());
      }
    }

    /** process_take_ix: an accepted take runs in its window on the proved notes, and publishes exactly
        the nullifiers of the orders it settles. */
    method ProcessTake(accounts: seq<Account>, data: Option<TakeIx>) returns (error: Option<Error>)
      requires Valid() && NoAuthoritySigns(accounts)
      modifies this
      ensures Valid()
      ensures if error.None? then data.Some? && Advanced(Take(accounts, data.value)) else Unchanged()
      ensures error.None? ==> IsPayer(accounts)
      ensures Outcome(old(View()), TakeCall(old(now), accounts, data))
              == if error.None? then Ok(View()) else Err(error.value)
      ensures error.None? ==> TakeBound(now, data.value.proof, data.value.transact)
      ensures error.None? ==> PublishesSettled(old(View()), Take(accounts, data.value), View())
    {
      ghost var before := View();
      var payer := NextSignerMut(accounts);
      if payer.Err? {
        return Some(payer.error);
      }
      var remaining := accounts[1..];
      if data.None? {
        return Some(InvalidInstructionData);
      }
      var proof, transact := data.value.proof, data.value.transact;
      if !CheckWithinWindow(now, transact.expiry) {
        return Some(Expired);
      }
      if transact.inputs == [] {
        return Some(InvalidInstructionData);
      }
      var publicInput := TakePublicInput(transact.privateTxHash, transact.expiry, transact.inputs[0]);
      if publicInput.None? {
        return Some(HashingFailed);
      }
      if !TakeCircuit.Define(publicInput.value, proof) {
        return Some(ProofVerificationFailed);
      }
      error := this.Forward(CpiTransactSigned(remaining, ORDER_AUTHORITY, transact), Take(accounts, data.value));
      if error.None? {
        ForwardedIsSigned(before.now, Take(accounts, data.value));
        TakeMeaning(before, accounts, data.value, View());
      }
    }

    /** process_take_verifiable_encryption_ix: likewise, with the proof's ciphertext in the last output. */
    method ProcessVerifiableTake(accounts: seq<Account>, data: Option<VerifiableTakeIx>) returns (error: Option<Error>)
      requires Valid() && NoAuthoritySigns(accounts)
      modifies this
      ensures Valid()
      ensures if error.None? then data.Some? && Advanced(VerifiableTake(accounts, data.value)) else Unchanged()
      ensures error.None? ==> IsPayer(accounts)
      ensures Outcome(old(View()), VerifiableTakeCall(old(now), accounts, data))
              == if error.None? then Ok(View()) else Err(error.value)
      ensures error.None? ==> VerifiableTakeBound(now, data.value.proof, data.value.transact)
      ensures error.None? ==> PublishesSettled(old(View()), VerifiableTake(accounts, data.value), View())
    {
      ghost var before := View();
      var payer := NextSignerMut(accounts);
      if payer.Err? {
        return Some(payer.error);
      }
      var remaining := accounts[1..];
      if data.None? {
        return Some(InvalidInstructionData);
      }
      var proof, transact := data.value.proof, data.value.transact;
      if !CheckWithinWindow(now, transact.expiry) {
        return Some(Expired);
      }
      if transact.outputs == [] {
        return Some(InvalidInstructionData);
      }
      var ciphertext := transact.outputs[|transact.outputs| - 1].data;
      if ciphertext.None? {
        return Some(InvalidInstructionData);
      }
      var publicInput := VerifiableTakePublicInput(transact.privateTxHash, transact.expiry, ciphertext.value);
      if publicInput.Err? {
        return Some(publicInput.error);
      }
      if !VerifiableTakeCircuit.Define(publicInput.value, proof) {
        return Some(ProofVerificationFailed);
      }
      error := this.Forward(CpiTransactSigned(remaining, ORDER_AUTHORITY, transact),
                            VerifiableTake(accounts, data.value));
      if error.None? {
        ForwardedIsSigned(before.now, VerifiableTake(accounts, data.value));
        VerifiableTakeMeaning(before, accounts, data.value, View());
      }
    }

    /** process_cancel_ix: the payer, then the maker, sign; an accepted cancel runs after expiry and
        publishes exactly the nullifiers of the orders it refunds. */
    method ProcessCancel(accounts: seq<Account>, data: Option<CancelIx>) returns (error: Option<Error>)
      requires Valid() && NoAuthoritySigns(accounts)
      modifies this
      ensures Valid()
      ensures if error.None? then data.Some? && Advanced(Cancel(accounts, data.value)) else Unchanged()
      ensures error.None? ==> IsPayer(accounts) && |accounts| > 1 && accounts[1].isSigner
      ensures Outcome(old(View()), CancelCall(old(now), accounts, data))
              == if error.None? then Ok(View()) else Err(error.value)
      ensures error.None? ==> CancelBound(now, accounts, data.value.orderExpiry, data.value.proof, data.value.transact)
      ensures error.None? ==> PublishesSettled(old(View()), Cancel(accounts, data.value), View())
    {
      ghost var before := View();
      var payer := NextSignerMut(accounts);
      if payer.Err? {
        return Some(payer.error);
      }
      var remaining := accounts[1..];
      var maker := NextSigner(remaining);
      if maker.Err? {
        return Some(maker.error);
      }
      remaining := remaining[1..];
      if data.None? {
        return Some(InvalidInstructionData);
      }
      var proof, orderExpiry, transact := data.value.proof, data.value.orderExpiry, data.value.transact;
      if !CheckAfterWindow(now, orderExpiry) {
        return Some(NotYetExpired);
      }
      var publicInput := CancelPublicInput(transact.privateTxHash, orderExpiry, SolanaIdentity(maker.value));
      if publicInput.None? {
        return Some(HashingFailed);
      }
      if !CancelCircuit.Define(publicInput.value, proof) {
        return Some(ProofVerificationFailed);
      }
      assert remaining == accounts[2..];
      error := this.Forward(CpiTransactSigned(remaining, ORDER_AUTHORITY, transact), Cancel(accounts, data.value));
      if error.None? {
        ForwardedIsSigned(before.now, Cancel(accounts, data.value));
        CancelMeaning(before, accounts, data.value, View());
      }
    }

    /** process_escrow_ix: an accepted escrow spends the proved source only and appends the change and
        the escrow note; it settles no order. */
    method ProcessEscrow(accounts: seq<Account>, data: Option<EscrowIx>) returns (error: Option<Error>)
      requires Valid() && NoAuthoritySigns(accounts)
      modifies this
      ensures Valid()
      ensures if error.None? then data.Some? && Advanced(Escrow(accounts, data.value)) else Unchanged()
      ensures error.None? ==> IsPayer(accounts)
      ensures Outcome(old(View()), EscrowCall(accounts, data)) == if error.None? then Ok(View()) else Err(error.value)
      ensures error.None? ==> EscrowBound(data.value.proof, data.value.transact)
      ensures error.None? ==> Commitment(data.value.proof.escrowUtxo) in leaves
      ensures error.None? ==> PublishesSettled(old(View()), Escrow(accounts, data.value), View())
    {
      ghost var before := View();
      var payer := NextSignerMut(accounts);
      if payer.Err? {
        return Some(payer.error);
      }
      var remaining := accounts[1..];
      if data.None? {
        return Some(InvalidInstructionData);
      }
      var proof, transact := data.value.proof, data.value.transact;
      var publicInput := Dec(transact.privateTxHash);
      if publicInput.None? || !DefineEscrow(publicInput.value, proof) {
        return Some(ProofVerificationFailed);
      }
      error := this.Forward(CpiTransactSigned(remaining, ESCROW_AUTHORITY, transact), Escrow(accounts, data.value));
      if error.None? {
        ForwardedIsSigned(before.now, Escrow(accounts, data.value));
        EscrowMeaning(before, accounts, data.value, View());
      }
    }

    /** process_withdraw_ix: the payer, then the creator, sign; an accepted withdraw runs after the unlock
        time and publishes exactly the nullifiers of the escrows it returns. */
    method ProcessWithdraw(accounts: seq<Account>, data: Option<WithdrawIx>) returns (error: Option<Error>)
      requires Valid() && NoAuthoritySigns(accounts)
      modifies this
      ensures Valid()
      ensures if error.None? then data.Some? && Advanced(Withdraw(accounts, data.value)) else Unchanged()
      ensures error.None? ==> IsPayer(accounts) && |accounts| > 1 && accounts[1].isSigner
      ensures Outcome(old(View()), WithdrawCall(old(now), accounts, data))
              == if error.None? then Ok(View()) else Err(error.value)
      ensures error.None? ==>
                WithdrawBound(now, accounts, data.value.unlockTimestamp, data.value.proof, data.value.transact)
      ensures error.None? ==> PublishesReturned(old(View()), Withdraw(accounts, data.value), View())
    {
      ghost var before := View();
      var payer := NextSignerMut(accounts);
      if payer.Err? {
        return Some(payer.error);
      }
      var remaining := accounts[1..];
      var creator := NextSigner(remaining);
      if creator.Err? {
        return Some(creator.error);
      }
      remaining := remaining[1..];
      if data.None? {
        return Some(InvalidInstructionData);
      }
      var proof, unlock, transact := data.value.proof, data.value.unlockTimestamp, data.value.transact;
      if !CheckAfterWindow(now, unlock) {
        return Some(NotYetUnlocked);
      }
      var publicInput := WithdrawPublicInput(transact.privateTxHash, unlock, SolanaIdentity(creator.value));
      if publicInput.None? {
        return Some(HashingFailed);
      }
      if !DefineWithdraw(publicInput.value, proof) {
        return Some(ProofVerificationFailed);
      }
      assert remaining == accounts[2..];
      error := this.Forward(CpiTransactSigned(remaining, ESCROW_AUTHORITY, transact), Withdraw(accounts, data.value));
      if error.None? {
        ForwardedIsSigned(before.now, Withdraw(accounts, data.value));
        WithdrawMeaning(before, accounts, data.value, View());
      }
    }

    /* What holds of the ledger after any calls. */

    /** Every order in the ledger is settled exactly once or still unspent, if and only if no make that
        was accepted spent an order note. */
    lemma OrdersSettledOnce()
      requires Valid()
      ensures Orderly(states, steps) <==> forall i :: 0 <= i < |steps| ==> SpendsNoOrder(steps[i])
    {
      OrdersSettleExactlyOnce(states, steps);
    }

    /** The same for escrows. */
    lemma EscrowsReturnedOnce()
      requires Valid()
      ensures (forall e: EscrowSdk.EscrowUtxo, t: u16 :: ReturnedOnce(states, steps, e, t))
              <==> forall i :: 0 <= i < |steps| ==> SpendsNoEscrow(steps[i])
    {
      EscrowsReturnExactlyOnce(states, steps);
    }

    /** The value locked in the ledger's live notes of either kind is what was newly locked minus what
        was released minus what was respent. */
    lemma LiveValue(kind: Kind, a: Fe)
      requires Valid() && forall i :: 0 <= i < |steps| ==> OnlyLocksAppend(kind, steps[i])
      ensures Sum(LiveNotes(kind, View()), a)
              == TotalMade(kind, states, steps, |steps|, a) - TotalLeft(kind, steps, |steps|, a)
                 - TotalRespent(kind, steps, |steps|, a)
      ensures (forall i :: 0 <= i < |steps| ==> kind.Guards(steps[i])) ==> TotalRespent(kind, steps, |steps|, a) == 0
    {
      LockedIsMadeMinusGone(kind, states, steps, |steps|, a);
      if forall i :: 0 <= i < |steps| ==> kind.Guards(steps[i]) {
        GuardedRespendsNothing(kind, steps, |steps|, a);
      }
    }
  }

  lemma AcceptedIsNext(s: State, step: Step, call: PoolCall)
    requires !step.Tick? && !step.Deposit? && Signable(step) && StepCall(s.now, step) == Ok(call)
    requires Accepts(s, call.transact, call.signers)
    ensures Next(s, step, Apply(s, call.transact))
  {
  }

  lemma MakeLocks(s: State, accounts: seq<Account>, ix: MakeIx, s': State)
    requires Next(s, Make(accounts, ix), s') && SpentIsAppended(Orders, s)
    ensures SpendsNoOrder(Make(accounts, ix)) ==>
              LiveNotes(Orders, s') == LiveNotes(Orders, s) + Made(Orders, s, Make(accounts, ix))
  {
    if SpendsNoOrder(Make(accounts, ix)) {
      LockAddsItsNote(Orders, s, Make(accounts, ix), s');
    }
  }

  lemma LockedIsAppended(outputs: seq<Fe>, change: Fe, locked: Fe)
    requires outputs == [change, locked]
    ensures locked in outputs
  {
    assert outputs[1] == locked;
  }

  lemma TakeMeaning(s: State, accounts: seq<Account>, ix: TakeIx, s': State)
    requires Next(s, Take(accounts, ix), s')
    ensures TakeBound(s.now, ix.proof, ix.transact) && PublishesSettled(s, Take(accounts, ix), s') && s'.now == s.now
  {
    TakeBinds(s, accounts, ix, StepCall(s.now, Take(accounts, ix)).value);
    PublishedIffSettled(s, Take(accounts, ix), s');
  }

  lemma VerifiableTakeMeaning(s: State, accounts: seq<Account>, ix: VerifiableTakeIx, s': State)
    requires Next(s, VerifiableTake(accounts, ix), s')
    ensures VerifiableTakeBound(s.now, ix.proof, ix.transact) && PublishesSettled(s, VerifiableTake(accounts, ix), s')
    ensures s'.now == s.now
  {
    VerifiableTakeBinds(s, accounts, ix, StepCall(s.now, VerifiableTake(accounts, ix)).value);
    PublishedIffSettled(s, VerifiableTake(accounts, ix), s');
  }

  lemma CancelIsBound(s: State, accounts: seq<Account>, ix: CancelIx, s': State)
    requires Next(s, Cancel(accounts, ix), s')
    ensures CancelBound(s.now, accounts, ix.orderExpiry, ix.proof, ix.transact) && s'.now == s.now
  {
    var call := AcceptedStep(s, Cancel(accounts, ix), s');
    CancelBinds(s, accounts, ix, call);
  }

  lemma CancelMeaning(s: State, accounts: seq<Account>, ix: CancelIx, s': State)
    requires Next(s, Cancel(accounts, ix), s')
    ensures CancelBound(s.now, accounts, ix.orderExpiry, ix.proof, ix.transact)
    ensures PublishesSettled(s, Cancel(accounts, ix), s')
    ensures s'.now == s.now
  {
    CancelIsBound(s, accounts, ix, s');
    PublishedIffSettled(s, Cancel(accounts, ix), s');
  }

  lemma WithdrawIsBound(s: State, accounts: seq<Account>, ix: WithdrawIx, s': State)
    requires Next(s, Withdraw(accounts, ix), s')
    ensures WithdrawBound(s.now, accounts, ix.unlockTimestamp, ix.proof, ix.transact) && s'.now == s.now
  {
    var call := AcceptedStep(s, Withdraw(accounts, ix), s');
    WithdrawBinds(s, accounts, ix, call);
  }

  lemma WithdrawMeaning(s: State, accounts: seq<Account>, ix: WithdrawIx, s': State)
    requires Next(s, Withdraw(accounts, ix), s')
    ensures WithdrawBound(s.now, accounts, ix.unlockTimestamp, ix.proof, ix.transact)
    ensures PublishesReturned(s, Withdraw(accounts, ix), s') && s'.now == s.now
  {
    WithdrawIsBound(s, accounts, ix, s');
    PublishedIffReturned(s, Withdraw(accounts, ix), s');
  }

  /** What an accepted make carried, and what it does to the trees. */
  lemma MakeMeaning(s: State, accounts: seq<Account>, ix: MakeIx, s': State)
    requires Next(s, Make(accounts, ix), s')
    ensures MakeBound(ix.proof, ix.transact) && Commitment(ix.proof.orderUtxo) in s'.leaves
    ensures IsPayer(accounts) && AwaitsMarker(ix.transact)
  {
    var call := AcceptedStep(s, Make(accounts, ix), s');
    MakeForwarded(accounts, ix);
    MakeBinds(s, accounts, ix, call);
    LockedIsAppended(RealOutputs(call.transact), Commitment(ix.proof.change), Commitment(ix.proof.orderUtxo));
  }

  lemma EscrowIsBound(s: State, accounts: seq<Account>, ix: EscrowIx, s': State)
    requires Next(s, Escrow(accounts, ix), s')
    ensures EscrowBound(ix.proof, ix.transact) && Commitment(ix.proof.escrowUtxo) in s'.leaves
  {
    var call := AcceptedStep(s, Escrow(accounts, ix), s');
    EscrowBinds(s, accounts, ix, call);
    LockedIsAppended(RealOutputs(call.transact), Commitment(ix.proof.change), Commitment(ix.proof.escrowUtxo));
  }

  lemma EscrowMeaning(s: State, accounts: seq<Account>, ix: EscrowIx, s': State)
    requires Next(s, Escrow(accounts, ix), s')
    ensures EscrowBound(ix.proof, ix.transact) && Commitment(ix.proof.escrowUtxo) in s'.leaves
    ensures PublishesSettled(s, Escrow(accounts, ix), s')
  {
    EscrowIsBound(s, accounts, ix, s');
    PublishedIffSettled(s, Escrow(accounts, ix), s');
  }
}
