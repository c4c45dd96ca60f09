/** The escrows and withdraws the SDK builds are accepted: no escrow is stranded. */
module EscrowLiveness {
  import opened Ideal
  import opened Notes
  import opened Pool
  import opened Runtime
  import opened EscrowProgram
  import opened EscrowSdk
  import opened ProofInputs
  import opened Runs
  import opened Binding
  import opened EscrowSafety
  import opened Built
  import Circuits = EscrowCircuits

  /* escrow */

  function EscrowTransact(p: EscrowParams, source: Source): Transact {
    BuildTransact(U64_MAX,
                  LockProof(source, p.ChangeNote(), p.escrowUtxo.Note(p.outputTree), p.outputTree, p.privateTxBlinding,
                            []))
  }

  predicate EscrowCovers(s: State, accounts: seq<Account>, p: EscrowParams, source: Source) {
    && IsPayer(accounts) && Forwards(accounts, 1, ESCROW_AUTHORITY)
    && p.sourceInputHash == Commitment(source.note)
    && Covers(s, CallSigners(accounts[1..], ESCROW_AUTHORITY), source, p.ChangeNote(), p.escrowUtxo.Note(p.outputTree))
  }

  lemma EscrowPassesChecks(accounts: seq<Account>, p: EscrowParams, source: Source, w: Circuits.EscrowWitness, h: Fe)
    requires IsPayer(accounts) && Forwards(accounts, 1, ESCROW_AUTHORITY) && Circuits.DefineEscrow(h, w)
    requires h
             == PrivateTxHash([Commitment(source.note), ZERO],
                              [Commitment(p.ChangeNote()), p.escrowUtxo.Leaf(p.outputTree)],
                                p.privateTxBlinding)
    ensures EscrowCall(accounts, Some(EscrowIx(w, EscrowTransact(p, source))))
            == Ok(PoolCall(EscrowTransact(p, source), CallSigners(accounts[1..], ESCROW_AUTHORITY)))
  {
    LockHashes(source, p.ChangeNote(), p.escrowUtxo.Note(p.outputTree), p.outputTree, p.privateTxBlinding, []);
    DecEnc(h);
  }

  lemma ForwardedEscrowLands(s: State, accounts: seq<Account>, ix: EscrowIx, signers: set<Fe>)
    requires EscrowCall(accounts, Some(ix)) == Ok(PoolCall(ix.transact, signers)) && NoAuthoritySigns(accounts)
    requires Accepts(s, ix.transact, signers)
    ensures Next(s, Escrow(accounts, ix), Apply(s, ix.transact))
  {
  }

  /** Whenever the SDK builds an escrow and its source note covers it, the instruction is accepted. */
  lemma EscrowLands(s: State, accounts: seq<Account>, p: EscrowParams, source: Source)
    returns (h: Fe, w: Circuits.EscrowWitness, s': State)
    requires p.ToProofInputs().Ok? && p.escrowUtxo.amount != 0 && EscrowCovers(s, accounts, p, source) && s.now >= 0
    ensures p.ToProofInputs() == Ok(Inputs(h, w)) && s' == Apply(s, EscrowTransact(p, source))
    ensures Next(s, Escrow(accounts, EscrowIx(w, EscrowTransact(p, source))), s')
    ensures Commitment(p.ChangeNote()) in s'.leaves && p.escrowUtxo.Leaf(p.outputTree) in s'.leaves
    ensures source.Nullified() in s'.spent && Consumes(EscrowTransact(p, source), source.note)
  {
    EscrowComplete(p);
    h, w := p.ToProofInputs().value.publicInputHash, p.ToProofInputs().value.proof;
    var change, locked := p.ChangeNote(), p.escrowUtxo.Note(p.outputTree);
    var signers := CallSigners(accounts[1..], ESCROW_AUTHORITY);
    s' := Apply(s, EscrowTransact(p, source));
    EscrowPassesChecks(accounts, p, source, w, h);
    LockIsAccepted(s, signers, source, change, locked, p.outputTree, p.privateTxBlinding, []);
    ForwardedEscrowLands(s, accounts, EscrowIx(w, EscrowTransact(p, source)), signers);
    LockEffects(s, source, change, locked, p.outputTree, p.privateTxBlinding, []);
  }

  /* The guard on escrow steps is not redundant. */

  function Relock(e: EscrowUtxo, t: u16, recipient: ShieldedAddress, paid: u64, tree: u16, blinding: Fe): EscrowParams
    requires paid <= e.amount
  {
    EscrowParams(e.(terms := e.terms.(creator := recipient), amount := e.amount - paid),
                 PlainOutput(e.asset, paid, blinding, recipient), e.Leaf(t), blinding, tree)
  }

  lemma RelockCovers(s: State, accounts: seq<Account>, e: EscrowUtxo, t: u16, recipient: ShieldedAddress, paid: u64,
                     tree: u16, blinding: Fe) returns (source: Source)
    requires IsPayer(accounts) && Forwards(accounts, 1, ESCROW_AUTHORITY)
    requires Live(s, e.Note(t)) && paid < e.amount
    ensures EscrowCovers(s, accounts, Relock(e, t, recipient, paid, tree, blinding), source) && source.note == e.Note(t)
    ensures source.Nullified() == e.SpentBy(t)
  {
    var p := Relock(e, t, recipient, paid, tree, blinding);
    source := AuthorityNoteCovers(s, accounts, ESCROW_AUTHORITY, e.Note(t), p.ChangeNote(), p.escrowUtxo.Note(tree));
  }

  /** Part of the amount of `e` in a plain note of the recipient's. */
  function Paid(e: EscrowUtxo, recipient: ShieldedAddress, paid: u64, tree: u16, blinding: Fe): Utxo {
    PlainNote(recipient.OwnerHash(), Num(tree), AssetField(e.asset.asset), Num(paid), blinding)
  }

  /** The escrow proof leaves the spent note and the owner of what is created free, as the make proof
      does. For every live escrow, every recipient and every part of its amount short of the whole, at
      any nonnegative time, before the unlock time included, there is an accepted escrow step that
      spends the escrow note, returns nothing, and pays that part to the recipient in a plain note. */
  lemma EscrowChangeIsFree(s: State, accounts: seq<Account>, e: EscrowUtxo, t: u16, recipient: ShieldedAddress,
                           paid: u64, tree: u16, blinding: Fe) returns (step: Step, s': State)
    requires IsPayer(accounts) && Forwards(accounts, 1, ESCROW_AUTHORITY)
    requires Live(s, e.Note(t)) && paid < e.amount && s.now >= 0
    ensures step.Escrow? && Next(s, step, s') && SpendsUnreturned(s, step, s', e, t)
    ensures Commitment(Paid(e, recipient, paid, tree, blinding)) in s'.leaves
  {
    var p := Relock(e, t, recipient, paid, tree, blinding);
    var source := RelockCovers(s, accounts, e, t, recipient, paid, tree, blinding);
    var h, w, after := EscrowLands(s, accounts, p, source);
    step, s' := Escrow(accounts, EscrowIx(w, EscrowTransact(p, source))), after;
    ConsumingEscrowSpendsUnreturned(s, step, s', e, t);
  }

  /** In particular every live escrow of a nonzero amount can be spent by an accepted escrow step. */
  lemma EscrowCanSpendAnEscrow(s: State, accounts: seq<Account>, e: EscrowUtxo, t: u16) returns (step: Step, s': State)
    requires IsPayer(accounts) && Forwards(accounts, 1, ESCROW_AUTHORITY)
    requires Live(s, e.Note(t)) && e.amount != 0 && s.now >= 0
    ensures step.Escrow? && Next(s, step, s') && SpendsUnreturned(s, step, s', e, t)
  {
    step, s' := EscrowChangeIsFree(s, accounts, e, t, e.terms.creator, 0, 0, ZERO);
  }

  /* withdraw */

  function WithdrawParamsOf(e: EscrowUtxo, t: u16, tree: u16, outputBlinding: Fe, txBlinding: Fe): WithdrawParams {
    WithdrawParams(e, PlainOutput(e.asset, e.amount, outputBlinding, e.terms.creator), txBlinding, t, tree)
  }

  function Refund(e: EscrowUtxo, tree: u16, outputBlinding: Fe): Utxo {
    PlainNote(e.terms.creator.OwnerHash(), Num(tree), AssetField(e.asset.asset), Num(e.amount), outputBlinding)
  }

  function WithdrawTransact(e: EscrowUtxo, t: u16, tree: u16, outputBlinding: Fe, txBlinding: Fe): Transact {
    BuildTransact(U64_MAX, RefundProof(e.Note(t), ESCROW_AUTHORITY, Refund(e, tree, outputBlinding), tree, txBlinding))
  }

  /** The SDK's withdraw parameters pass its own checks and prove the refund. */
  lemma WithdrawInputsOf(e: EscrowUtxo, t: u16, tree: u16, outputBlinding: Fe, txBlinding: Fe)
    returns (h: Fe, w: Circuits.WithdrawWitness)
    requires e.amount != 0
    ensures WithdrawParamsOf(e, t, tree, outputBlinding, txBlinding).ToProofInputs() == Ok(Inputs(h, w))
    ensures Circuits.DefineWithdraw(h, w)
    ensures w.privateTxHash == PrivateTxHash([e.Leaf(t)], [Commitment(Refund(e, tree, outputBlinding))], txBlinding)
    ensures WithdrawPublicInput(Enc(w.privateTxHash), e.terms.unlockTimestamp, OwnerField(e.terms.creator.signing))
            == Some(h)
  {
    var p := WithdrawParamsOf(e, t, tree, outputBlinding, txBlinding);
    var tx := PrivateTxHash([e.Leaf(t)], [Commitment(Refund(e, tree, outputBlinding))], txBlinding);
    PublicInputOfEncodings(tx, e.terms.unlockTimestamp, OwnerField(e.terms.creator.signing));
    assert p.ToProofInputs().Ok?;
    WithdrawComplete(p);
    h, w := p.ToProofInputs().value.publicInputHash, p.ToProofInputs().value.proof;
  }

  lemma WithdrawPassesChecks(now: i64, accounts: seq<Account>, creator: Address, ix: WithdrawIx, h: Fe)
    requires RefundAccounts(accounts, creator, ESCROW_AUTHORITY) && CheckAfterWindow(now, ix.unlockTimestamp)
    requires WithdrawPublicInput(ix.transact.privateTxHash, ix.unlockTimestamp, SolanaIdentity(creator)) == Some(h)
    requires Circuits.DefineWithdraw(h, ix.proof)
    ensures WithdrawCall(now, accounts, Some(ix))
            == Ok(PoolCall(ix.transact, CallSigners(accounts[2..], ESCROW_AUTHORITY)))
  {
    assert accounts[1..][0] == accounts[1];
  }

  lemma ForwardedWithdrawLands(s: State, accounts: seq<Account>, ix: WithdrawIx, signers: set<Fe>, e: EscrowUtxo,
                               t: u16)
    requires WithdrawCall(s.now, accounts, Some(ix)) == Ok(PoolCall(ix.transact, signers)) && NoAuthoritySigns(accounts)
    requires Accepts(s, ix.transact, signers) && Consumes(ix.transact, e.Note(t))
    ensures Next(s, Withdraw(accounts, ix), Apply(s, ix.transact)) && Returns(s.now, Withdraw(accounts, ix), e, t)
  {
    WithdrawBinds(s, accounts, ix, PoolCall(ix.transact, signers));
    BoundWithdrawReturns(s.now, accounts, ix, e, t);
  }

  /** Past the unlock time, the withdraw the SDK builds for a live escrow of an ed25519 creator is
      accepted, whatever output tree and blindings are chosen, and returns it. */
  lemma WithdrawLands(s: State, accounts: seq<Account>, e: EscrowUtxo, t: u16, creator: Address, tree: u16,
                      outputBlinding: Fe, txBlinding: Fe) returns (ix: WithdrawIx)
    requires Live(s, e.Note(t)) && e.amount != 0 && s.now > e.terms.unlockTimestamp
    requires e.terms.creator.signing == Ed25519(creator) && RefundAccounts(accounts, creator, ESCROW_AUTHORITY)
    ensures WithdrawParamsOf(e, t, tree, outputBlinding, txBlinding).ToProofInputs().Ok?
    ensures ix.proof == WithdrawParamsOf(e, t, tree, outputBlinding, txBlinding).ToProofInputs().value.proof
    ensures Next(s, Withdraw(accounts, ix), Apply(s, ix.transact)) && Returns(s.now, Withdraw(accounts, ix), e, t)
  {
    var h, w := WithdrawInputsOf(e, t, tree, outputBlinding, txBlinding);
    var signers := CallSigners(accounts[2..], ESCROW_AUTHORITY);
    ix := WithdrawIx(w, e.terms.unlockTimestamp, WithdrawTransact(e, t, tree, outputBlinding, txBlinding));
    RefundHashes(e.Note(t), ESCROW_AUTHORITY, Refund(e, tree, outputBlinding), tree, txBlinding);
    WithdrawPassesChecks(s.now, accounts, creator, ix, h);
    AuthorityIsSigner(accounts, 2, ESCROW_AUTHORITY);
    RefundIsAccepted(s, signers, e.Note(t), ESCROW_AUTHORITY, Refund(e, tree, outputBlinding), tree, txBlinding);
    ForwardedWithdrawLands(s, accounts, ix, signers, e, t);
  }

  ghost predicate Withdrawable(e: EscrowUtxo, t: u16) {
    exists s: State, accounts: seq<Account>, ix: WithdrawIx, s': State ::
      Next(s, Withdraw(accounts, ix), s') && Returns(s.now, Withdraw(accounts, ix), e, t)
  }

  /** What a caller can check: a plain ed25519 creator, a nonzero amount, and an unlock time the signed
      clock can pass. */
  predicate AllowsWithdraw(e: EscrowUtxo) {
    && e.terms.creator.signing.Ed25519? && !IsAuthority(e.terms.creator.signing.key)
    && e.terms.unlockTimestamp < LAST_TIME && e.amount != 0
  }

  lemma WithdrawnEscrow(s: State, accounts: seq<Account>, ix: WithdrawIx, s': State, e: EscrowUtxo, t: u16)
    requires Next(s, Withdraw(accounts, ix), s') && Returns(s.now, Withdraw(accounts, ix), e, t)
    ensures AllowsWithdraw(e)
  {
    WithdrawBinds(s, accounts, ix, StepCall(s.now, Withdraw(accounts, ix)).value);
  }

  /** Exactly these escrows can be withdrawn at all. */
  lemma WithdrawableIff(e: EscrowUtxo, t: u16)
    ensures Withdrawable(e, t) <==> AllowsWithdraw(e)
  {
    if Withdrawable(e, t) {
      var s: State, accounts: seq<Account>, ix: WithdrawIx, s': State :|
        Next(s, Withdraw(accounts, ix), s') && Returns(s.now, Withdraw(accounts, ix), e, t);
      WithdrawnEscrow(s, accounts, ix, s', e, t);
    } else if AllowsWithdraw(e) {
      var accounts, ix := WithdrawAfter(State(e.terms.unlockTimestamp + 1, {e.Leaf(t)}, {}), e, t);
      assert Withdrawable(e, t);
    }
  }

  lemma WithdrawAfter(s: State, e: EscrowUtxo, t: u16) returns (accounts: seq<Account>, ix: WithdrawIx)
    requires Live(s, e.Note(t)) && AllowsWithdraw(e) && s.now > e.terms.unlockTimestamp
    ensures Next(s, Withdraw(accounts, ix), Apply(s, ix.transact)) && Returns(s.now, Withdraw(accounts, ix), e, t)
  {
    accounts := OwnerAccounts(e.terms.creator.signing.key, ESCROW_AUTHORITY);
    ix := WithdrawLands(s, accounts, e, t, e.terms.creator.signing.key, 0, ZERO, ZERO);
  }

  /** Whatever run has led to a live escrow that allows a withdraw, the run can be continued, without
      turning the clock back, to a withdraw that returns it. */
  lemma NoEscrowIsStranded(states: seq<State>, steps: seq<Step>, e: EscrowUtxo, t: u16)
    returns (to: i64, withdraw: Step, last: State)
    requires Run(states, steps) && Live(states[|steps|], e.Note(t)) && AllowsWithdraw(e)
    ensures to >= states[|steps|].now
    ensures Run(states + [states[|steps|].(now := to), last], steps + [Tick(to), withdraw])
    ensures withdraw.Withdraw? && Returns(to, withdraw, e, t)
  {
    var s := states[|steps|];
    to := if s.now > e.terms.unlockTimestamp then s.now else e.terms.unlockTimestamp + 1;
    var late := s.(now := to);
    var accounts, ix := WithdrawAfter(late, e, t);
    withdraw, last := Withdraw(accounts, ix), Apply(late, ix.transact);
    ExtendTwice(states, steps, Tick(to), late, withdraw, last);
  }
}
