/** Swap safety over whole runs: an order's note leaves the pool exactly once, and only by a
    settlement of its own terms. */
module Settlement {
  import opened Ideal
  import opened Notes
  import opened Pool
  import opened Runtime
  import opened SwapProgram
  import opened Runs
  import opened Binding
  import opened Order
  import Circuit = OrderTermsCircuit
  import TakeCircuit

  /** The order and the taker's note in, the whole source to the taker's note owner and exactly
      the agreed amount to the maker out. */
  predicate PaysTake(core: TakeCircuit.Core, tx: Transact, o: OrderUtxo, t: u16) {
    var taker, source, destination := core.takerIn, core.sourceOutput, core.destinationOutput;
    var sourceAsset, destinationAsset := AssetField(o.sourceMint.asset), AssetField(o.terms.destinationMint);
    && RealInputs(tx) == [o.Leaf(t), Commitment(taker)]
    && RealOutputs(tx) == [Commitment(source), Commitment(destination)]
    && taker == PlainNote(taker.owner, taker.treeId, destinationAsset, Num(o.terms.destinationAmount), taker.blinding)
    && source == PlainNote(taker.owner, source.treeId, sourceAsset, Num(o.sourceAmount), source.blinding)
    && destination == PlainNote(o.terms.destination.OwnerHash(), destination.treeId, destinationAsset,
                                Num(o.terms.destinationAmount), destination.blinding)
  }

  predicate Signed(accounts: seq<Account>, key: Address) {
    exists i :: 0 <= i < |accounts| && accounts[i].address == key && (accounts[i].isSigner || key == ORDER_AUTHORITY)
  }

  /** The step settles order `o` of tree `t`: by the rail its terms name, inside that rail's
      window, authorized by whom the terms require, paying whom the terms name. */
  predicate Settles(now: i64, step: Step, o: OrderUtxo, t: u16) {
    match step
    case Take(_, ix) =>
      && 0 <= now && now <= o.terms.expiry
      && o.terms.takeMode == 0
      && PaysTake(ix.proof.core, ix.transact, o, t)
    case VerifiableTake(accounts, ix) =>
      && 0 <= now && now <= o.terms.expiry
      && o.terms.takeMode == 1
      && ix.proof.core.takerIn.owner == Poseidon([SolanaIdentity(o.terms.taker), ix.proof.takerNullifierPk])
      && Signed(accounts, o.terms.taker)
      && PaysTake(ix.proof.core, ix.transact, o, t)
    case Cancel(accounts, ix) =>
      var refund := ix.proof.sourceOutput;
      && 0 <= now && now > o.terms.expiry
      && |accounts| >= 2 && accounts[1].isSigner && o.terms.destination.signing == Ed25519(accounts[1].address)
      && RealInputs(ix.transact) == [o.Leaf(t)]
      && RealOutputs(ix.transact) == [Commitment(refund)]
      && refund == PlainNote(o.terms.destination.OwnerHash(), refund.treeId, AssetField(o.sourceMint.asset),
                             Num(o.sourceAmount), refund.blinding)
    case _ => false
  }

  /** A circuit's order note that is `o`'s note was proved with `o`'s terms. */
  lemma TermsOfNote(order: Circuit.OrderTerms, u: Utxo, o: OrderUtxo, t: u16)
    requires Circuit.IsOrderUtxo(order, u) && u == o.Note(t)
    ensures order == ToProofInput(o.terms).Witness()
  {
    Circuit.DataHashInjective(order, ToProofInput(o.terms).Witness());
  }

  /** Of the two inputs of a take, only the first can be an order note, and then the take pays as
      that order's terms say. */
  lemma CorePays(core: TakeCircuit.Core, privateTxHash: Fe, tx: Transact, o: OrderUtxo, t: u16)
    requires CoreBound(core, privateTxHash, tx)
    ensures Consumes(tx, o.Note(t)) <==> PaysTake(core, tx, o, t)
    ensures Consumes(tx, o.Note(t)) ==> core.order == ToProofInput(o.terms).Witness()
  {
    ConsumesIsRealInput(tx, o.Note(t));
    if core.orderUtxo == o.Note(t) {
      TermsOfNote(core.order, core.orderUtxo, o, t);
    }
  }

  /** The owner of a spent note signed the call. */
  lemma OwnerSigned(s: State, tx: Transact, accounts: seq<Account>, u: Utxo, key: Address, nullifierPk: Fe)
    requires |accounts| >= 1 && Accepts(s, tx, CallSigners(accounts[1..], ORDER_AUTHORITY)) && Consumes(tx, u)
    requires u.owner == Poseidon([SolanaIdentity(key), nullifierPk])
    ensures Signed(accounts, key)
  {
    var inputs := tx.proof.inputs;
    var i :| 0 <= i < |inputs| && inputs[i].Spend? && inputs[i].utxo == u;
    assert SpendAllowed(s, inputs[i], CallSigners(accounts[1..], ORDER_AUTHORITY));
    assert u.owner.args[0] == inputs[i].signer;
    SignerSigned(accounts, key);
  }

  lemma SignerSigned(accounts: seq<Account>, key: Address)
    requires |accounts| >= 1 && SolanaIdentity(key) in CallSigners(accounts[1..], ORDER_AUTHORITY)
    ensures Signed(accounts, key)
  {
    var a :| a in accounts[1..] && a.address == key && (a.isSigner || a.address == ORDER_AUTHORITY);
    var k :| 0 <= k < |accounts[1..]| && accounts[1..][k] == a;
    assert accounts[k + 1] == a;
  }

  lemma TakeSettles(now: i64, accounts: seq<Account>, ix: TakeIx, o: OrderUtxo, t: u16)
    requires TakeBound(now, ix.proof, ix.transact)
    ensures Consumes(ix.transact, o.Note(t)) <==> Settles(now, Take(accounts, ix), o, t)
  {
    CorePays(ix.proof.core, ix.proof.privateTxHash, ix.transact, o, t);
  }

  /** The committed taker signs an encrypted take of its order. */
  lemma TakerSigned(s: State, accounts: seq<Account>, ix: VerifiableTakeIx, o: OrderUtxo, t: u16)
    requires |accounts| >= 1 && Accepts(s, ix.transact, CallSigners(accounts[1..], ORDER_AUTHORITY))
    requires VerifiableTakeBound(s.now, ix.proof, ix.transact) && Consumes(ix.transact, o.Note(t))
    ensures Signed(accounts, o.terms.taker)
  {
    CorePays(ix.proof.core, ix.proof.privateTxHash, ix.transact, o, t);
    assert ix.proof.core.order.takerPkFe == SolanaIdentity(o.terms.taker);
    assert RealInputs(ix.transact)[1] == Commitment(ix.proof.core.takerIn);
    ConsumesIsRealInput(ix.transact, ix.proof.core.takerIn);
    OwnerSigned(s, ix.transact, accounts, ix.proof.core.takerIn, o.terms.taker, ix.proof.takerNullifierPk);
  }

  lemma VerifiableTakeSettles(now: i64, accounts: seq<Account>, ix: VerifiableTakeIx, o: OrderUtxo, t: u16)
    requires VerifiableTakeBound(now, ix.proof, ix.transact)
    requires Consumes(ix.transact, o.Note(t)) ==> Signed(accounts, o.terms.taker)
    ensures Consumes(ix.transact, o.Note(t)) <==> Settles(now, VerifiableTake(accounts, ix), o, t)
  {
    CorePays(ix.proof.core, ix.proof.privateTxHash, ix.transact, o, t);
  }

  lemma CancelSettles(now: i64, accounts: seq<Account>, ix: CancelIx, o: OrderUtxo, t: u16)
    requires CancelBound(now, accounts, ix.orderExpiry, ix.proof, ix.transact)
    ensures Consumes(ix.transact, o.Note(t)) <==> Settles(now, Cancel(accounts, ix), o, t)
  {
    ConsumesIsRealInput(ix.transact, o.Note(t));
    if ix.proof.orderUtxo == o.Note(t) {
      TermsOfNote(ix.proof.order, ix.proof.orderUtxo, o, t);
      assert ix.proof.order.expiry == Num(o.terms.expiry);
      assert ix.proof.order.makerOwnerHash == o.terms.destination.OwnerHash();
      OwnerHashOpens(o.terms.destination, SolanaIdentity(accounts[1].address), ix.proof.makerNullifierPk);
    }
  }

  /** In any step but a make, an order note is spent exactly when the step settles the order. */
  lemma SpentIffSettled(s: State, step: Step, s': State, o: OrderUtxo, t: u16)
    requires Next(s, step, s') && !step.Make?
    ensures Spends(s.now, step, o.Note(t)) <==> Settles(s.now, step, o, t)
  {
    StepOnNote(s, step, s', o.Note(t), ORDER_AUTHORITY);
    AuthoritiesDiffer();
    match step
    case Take(accounts, ix) =>
      TakeBinds(s, accounts, ix, StepCall(s.now, step).value);
      TakeSettles(s.now, accounts, ix, o, t);
    case VerifiableTake(accounts, ix) =>
      VerifiableTakeBinds(s, accounts, ix, StepCall(s.now, step).value);
      if Consumes(ix.transact, o.Note(t)) {
        TakerSigned(s, accounts, ix, o, t);
      }
      VerifiableTakeSettles(s.now, accounts, ix, o, t);
    case Cancel(accounts, ix) =>
      CancelBinds(s, accounts, ix, StepCall(s.now, step).value);
      CancelSettles(s.now, accounts, ix, o, t);
    case _ =>
  }

  /** The number in the committed terms names the rail: a derived take spends orders of mode 0 only, an
      encrypted one orders of mode 1 only. */
  lemma RailOfMode(s: State, step: Step, s': State, o: OrderUtxo, t: u16)
    requires Next(s, step, s') && Spends(s.now, step, o.Note(t))
    ensures step.Take? ==> o.terms.takeMode == 0
    ensures step.VerifiableTake? ==> o.terms.takeMode == 1
  {
    if step.Take? || step.VerifiableTake? {
      SpentIffSettled(s, step, s', o, t);
    }
  }

  /** The order nullifiers that appear from `s` to `s'` are those of the orders the step settles. */
  ghost predicate PublishesSettled(s: State, step: Step, s': State) {
    forall o: OrderUtxo, t: u16 ::
      (o.SpentBy(t) in s'.spent && o.SpentBy(t) !in s.spent) <==> Settles(s.now, step, o, t)
  }

  /** Any step but a make publishes exactly the nullifiers of the orders it settles. */
  lemma PublishedIffSettled(s: State, step: Step, s': State)
    requires Next(s, step, s') && !step.Make?
    ensures PublishesSettled(s, step, s')
  {
    forall o: OrderUtxo, t: u16
      ensures (o.SpentBy(t) in s'.spent && o.SpentBy(t) !in s.spent) <==> Settles(s.now, step, o, t)
    {
      StepOnNote(s, step, s', o.Note(t), ORDER_AUTHORITY);
      SpentIffSettled(s, step, s', o, t);
    }
  }

  /* The one thing the make proof leaves open: the notes a make spends. */

  ghost predicate IsOrderNote(u: Utxo) {
    exists o: OrderUtxo, t: u16 :: u == o.Note(t)
  }

  /** The guard: no note a make spends is an order note. */
  ghost predicate SpendsNoOrder(step: Step) {
    step.Make? ==>
      forall i :: 0 <= i < |step.make.transact.proof.inputs| && step.make.transact.proof.inputs[i].Spend? ==>
        !IsOrderNote(step.make.transact.proof.inputs[i].utxo)
  }

  /** A caller's sufficient check: every note a make spends carries no data. */
  predicate SpendsPlainNotes(step: Step) {
    step.Make? ==>
      forall i :: 0 <= i < |step.make.transact.proof.inputs| && step.make.transact.proof.inputs[i].Spend? ==>
        step.make.transact.proof.inputs[i].utxo.dataHash == ZERO
  }

  lemma PlainNotesAreNoOrders(step: Step)
    requires SpendsPlainNotes(step)
    ensures SpendsNoOrder(step)
  {
  }

  /* Runs. */

  /** Which steps of a run settle the order. */
  function SettleMarks(states: seq<State>, steps: seq<Step>, o: OrderUtxo, t: u16): (marks: seq<bool>)
    requires |states| == |steps| + 1
    ensures |marks| == |steps|
  {
    seq(|steps|, i requires 0 <= i < |steps| => Settles(states[i].now, steps[i], o, t))
  }

  /** The order is settled by exactly one step if its nullifier was published, and by none otherwise. */
  predicate SettledOnce(states: seq<State>, steps: seq<Step>, o: OrderUtxo, t: u16)
    requires |states| == |steps| + 1
  {
    Count(SettleMarks(states, steps, o, t)) == if o.SpentBy(t) in states[|steps|].spent then 1 else 0
  }

  ghost predicate Orderly(states: seq<State>, steps: seq<Step>)
    requires |states| == |steps| + 1
  {
    forall o: OrderUtxo, t: u16 :: SettledOnce(states, steps, o, t)
  }

  /** A settling step spends the order note, whatever the step; only a make can spend it otherwise. */
  lemma SettlesSpends(s: State, step: Step, s': State, o: OrderUtxo, t: u16)
    requires Next(s, step, s')
    ensures Settles(s.now, step, o, t) <==> Spends(s.now, step, o.Note(t)) && !step.Make?
  {
    if !step.Make? {
      SpentIffSettled(s, step, s', o, t);
    }
  }

  /** For one order: settled exactly once if spent, just when no make spends it. */
  lemma SettledOnceIff(states: seq<State>, steps: seq<Step>, o: OrderUtxo, t: u16)
    requires Run(states, steps) && states[0].spent == {}
    ensures SettledOnce(states, steps, o, t)
            <==> forall i :: 0 <= i < |steps| && Spends(states[i].now, steps[i], o.Note(t)) ==> !steps[i].Make?
  {
    var settled, spent := SettleMarks(states, steps, o, t), SpendMarks(states, steps, o.Note(t));
    forall i | 0 <= i < |steps|
      ensures settled[i] <==> spent[i] && !steps[i].Make?
    {
      SettlesSpends(states[i], steps[i], states[i + 1], o, t);
    }
    SpentOnce(states, steps, o.Note(t), ORDER_AUTHORITY);
    CountOfImplied(settled, spent);
  }

  /** The guard says which notes a make spends. */
  lemma GuardedMakeSpendsNoOrder(s: State, step: Step, s': State, o: OrderUtxo, t: u16)
    requires Next(s, step, s') && step.Make? && SpendsNoOrder(step)
    ensures !Spends(s.now, step, o.Note(t))
  {
    CarriedIsForwarded(s.now, step, o.Note(t));
  }

  /** What the guard says of the transaction a make carries. */
  lemma ConsumingBreaksGuard(step: Step, o: OrderUtxo, t: u16)
    requires step.Make? && Consumes(step.make.transact, o.Note(t))
    ensures !SpendsNoOrder(step)
  {
  }

  /** The step breaks the guard: it spends the order's note for good and settles nothing. */
  ghost predicate SpendsUnsettled(s: State, step: Step, s': State, o: OrderUtxo, t: u16) {
    && !SpendsNoOrder(step) && !Settles(s.now, step, o, t)
    && Spends(s.now, step, o.Note(t)) && !Live(s', o.Note(t))
  }

  lemma ConsumingMakeSpendsUnsettled(s: State, step: Step, s': State, o: OrderUtxo, t: u16)
    requires Next(s, step, s') && step.Make? && Consumes(step.make.transact, o.Note(t)) && o.SpentBy(t) in s'.spent
    ensures SpendsUnsettled(s, step, s', o, t)
  {
    CarriedIsForwarded(s.now, step, o.Note(t));
    ConsumingBreaksGuard(step, o, t);
  }

  lemma UnguardedConsumes(step: Step) returns (o: OrderUtxo, t: u16)
    requires !SpendsNoOrder(step)
    ensures step.Make? && Consumes(step.make.transact, o.Note(t))
  {
    var inputs := step.make.transact.proof.inputs;
    var k :| 0 <= k < |inputs| && inputs[k].Spend? && IsOrderNote(inputs[k].utxo);
    o, t :| inputs[k].utxo == o.Note(t);
  }

  lemma UnguardedMakeSpendsOrder(s: State, step: Step, s': State) returns (o: OrderUtxo, t: u16)
    requires Next(s, step, s') && !SpendsNoOrder(step)
    ensures step.Make? && Spends(s.now, step, o.Note(t))
  {
    o, t := UnguardedConsumes(step);
    CarriedIsForwarded(s.now, step, o.Note(t));
  }

  /** What settling exactly once means step by step. */
  lemma SettledOnceMeaning(states: seq<State>, steps: seq<Step>, o: OrderUtxo, t: u16)
    requires Run(states, steps) && SettledOnce(states, steps, o, t)
    ensures o.SpentBy(t) in states[|steps|].spent <==> exists i ::
              0 <= i < |steps| && Settles(states[i].now, steps[i], o, t)
    ensures forall i, j ::
              0 <= i < j < |steps| ==>
                !(Settles(states[i].now, steps[i], o, t) && Settles(states[j].now, steps[j], o, t))
  {
    var marks := SettleMarks(states, steps, o, t);
    CountMeaning(marks);
    assert forall i :: 0 <= i < |steps| ==> marks[i] == Settles(states[i].now, steps[i], o, t);
  }

  /** Main theorem. In a run from an empty nullifier set, every order is settled exactly once or
      still unspent, by the rail, in the window, with the signer and to the parties of its own
      terms -- if and only if no make of the run spends an order note. */
  lemma OrdersSettleExactlyOnce(states: seq<State>, steps: seq<Step>)
    requires Run(states, steps) && states[0].spent == {}
    ensures Orderly(states, steps) <==> forall i :: 0 <= i < |steps| ==> SpendsNoOrder(steps[i])
  {
    if forall i :: 0 <= i < |steps| ==> SpendsNoOrder(steps[i]) {
      forall o: OrderUtxo, t: u16
        ensures SettledOnce(states, steps, o, t)
      {
        SettledOnceIff(states, steps, o, t);
        forall i | 0 <= i < |steps| && steps[i].Make?
          ensures !Spends(states[i].now, steps[i], o.Note(t))
        {
          GuardedMakeSpendsNoOrder(states[i], steps[i], states[i + 1], o, t);
        }
      }
    } else {
      var i :| 0 <= i < |steps| && !SpendsNoOrder(steps[i]);
      var o, t := UnguardedMakeSpendsOrder(states[i], steps[i], states[i + 1]);
      SettledOnceIff(states, steps, o, t);
    }
  }

  /** A sufficient check for callers: if every make of the run spends only notes without data, every
      order is settled exactly once or still unspent. */
  lemma PlainMakesAreOrderly(states: seq<State>, steps: seq<Step>)
    requires Run(states, steps) && states[0].spent == {}
    requires forall i :: 0 <= i < |steps| ==> SpendsPlainNotes(steps[i])
    ensures Orderly(states, steps)
  {
    forall i | 0 <= i < |steps|
      ensures SpendsNoOrder(steps[i])
    {
      PlainNotesAreNoOrders(steps[i]);
    }
    OrdersSettleExactlyOnce(states, steps);
  }
}
