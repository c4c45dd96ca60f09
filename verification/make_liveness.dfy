/** The makes the SDK builds are accepted, whatever note they spend. */
module MakeLiveness {
  import opened Ideal
  import opened Notes
  import opened Pool
  import opened Runtime
  import opened SwapProgram
  import opened Runs
  import opened Order
  import opened ProofInputs
  import opened SwapSdk
  import opened Settlement
  import opened Built
  import opened Marker
  import MakeCircuit

  function MakerChange(p: MakeParams): Utxo {
    PlainNote(p.orderUtxo.terms.destination.OwnerHash(), Num(p.outputTree), AssetField(p.orderUtxo.sourceMint.asset),
              Num(p.change.amount), p.change.blinding)
  }

  function OrderNote(p: MakeParams): Utxo {
    p.orderUtxo.Note(p.outputTree)
  }

  /** The pool's proof, bound to the marker the program will write. */
  function MakeProof(payer: Address, tag: seq<Byte>, p: MakeParams, source: Source): TransactProof {
    var second := LockOutputs(source, MakerChange(p), OrderNote(p))[1];
    LockProof(source, MakerChange(p), OrderNote(p), p.outputTree, p.privateTxBlinding,
              [MarkerMessage(tag, Enc(second.Hash()), payer)])
  }

  function MakeTransact(payer: Address, tag: seq<Byte>, p: MakeParams, source: Source): Transact {
    BuildTransact(U64_MAX, MakeProof(payer, tag, p, source))
  }

  /** The make instruction of a proved witness: its one message still blank. */
  function MakeIxOf(payer: Address, tag: seq<Byte>, p: MakeParams, source: Source, w: MakeCircuit.Witness): MakeIx {
    MakeIx(w, MakeTransact(payer, tag, p, source).(messages := [Message(tag, [])]))
  }

  predicate SourceCovers(s: State, accounts: seq<Account>, p: MakeParams, source: Source) {
    && IsPayer(accounts) && Forwards(accounts, 1, ORDER_AUTHORITY)
    && p.sourceInputHash == Commitment(source.note)
    && Covers(s, CallSigners(accounts[1..], ORDER_AUTHORITY), source, MakerChange(p), OrderNote(p))
  }

  /** The processor forwards the instruction with the marker filled in. */
  lemma MakePassesChecks(accounts: seq<Account>, tag: seq<Byte>, p: MakeParams, source: Source, w: MakeCircuit.Witness,
                         h: Fe)
    requires IsPayer(accounts) && Forwards(accounts, 1, ORDER_AUTHORITY) && MakeCircuit.Define(h, w)
    requires h == PrivateTxHash([Commitment(source.note), ZERO], [Commitment(MakerChange(p)), Commitment(OrderNote(p))],
                                p.privateTxBlinding)
    ensures MakeCall(accounts, Some(MakeIxOf(accounts[0].address, tag, p, source, w)))
            == Ok(PoolCall(MakeTransact(accounts[0].address, tag, p, source),
                           CallSigners(accounts[1..], ORDER_AUTHORITY)))
  {
    var proof := MakeProof(accounts[0].address, tag, p, source);
    LockHashes(source, MakerChange(p), OrderNote(p), p.outputTree, p.privateTxBlinding, proof.messages);
    DecEnc(h);
    assert MakeTransact(accounts[0].address, tag, p, source).outputs[1].utxoHash == Enc(proof.outputs[1].Hash());
  }

  lemma ForwardedMakeLands(s: State, accounts: seq<Account>, ix: MakeIx, call: PoolCall)
    requires MakeCall(accounts, Some(ix)) == Ok(call) && NoAuthoritySigns(accounts)
    requires Accepts(s, call.transact, call.signers)
    ensures Next(s, Make(accounts, ix), Apply(s, call.transact))
  {
  }

  /** Whenever the SDK builds a make and its source note is spendable and covers it, the instruction
      is accepted: the source is spent, the change and the order are appended. This holds with and
      without a padding output between the two. */
  lemma MakeLands(s: State, accounts: seq<Account>, tag: seq<Byte>, p: MakeParams, source: Source)
    returns (h: Fe, w: MakeCircuit.Witness, s': State)
    requires p.ToProofInputs().Ok? && SourceCovers(s, accounts, p, source) && s.now >= 0
    requires p.orderUtxo.sourceAmount != 0 && p.orderUtxo.terms.destinationAmount != 0
    requires p.orderUtxo.terms.takeMode <= 1
    ensures p.ToProofInputs() == Ok(Inputs(h, w)) && w.orderUtxo == OrderNote(p)
    ensures Next(s, Make(accounts, MakeIxOf(accounts[0].address, tag, p, source, w)), s')
    ensures var call := PoolCall(MakeTransact(accounts[0].address, tag, p, source),
                                 CallSigners(accounts[1..], ORDER_AUTHORITY));
            && MakeCall(accounts, Some(MakeIxOf(accounts[0].address, tag, p, source, w))) == Ok(call)
            && Accepts(s, call.transact, call.signers)
            && s' == Apply(s, call.transact)
    ensures Commitment(MakerChange(p)) in s'.leaves && Commitment(OrderNote(p)) in s'.leaves
    ensures source.Nullified() in s'.spent && Consumes(MakeTransact(accounts[0].address, tag, p, source), source.note)
  {
    MakeComplete(p);
    h, w := p.ToProofInputs().value.publicInputHash, p.ToProofInputs().value.proof;
    var payer := accounts[0].address;
    var messages := MakeProof(payer, tag, p, source).messages;
    var call := PoolCall(MakeTransact(payer, tag, p, source), CallSigners(accounts[1..], ORDER_AUTHORITY));
    s' := Apply(s, call.transact);
    MakePassesChecks(accounts, tag, p, source, w, h);
    LockIsAccepted(s, call.signers, source, MakerChange(p), OrderNote(p), p.outputTree, p.privateTxBlinding, messages);
    ForwardedMakeLands(s, accounts, MakeIxOf(payer, tag, p, source, w), call);
    LockEffects(s, source, MakerChange(p), OrderNote(p), p.outputTree, p.privateTxBlinding, messages);
  }

  /* The guard on makes is not redundant. */

  /** The parameters of a make with the note of `o` as its source: `paid` to `recipient` as change and
      the rest locked in a new order of the recipient's. */
  function Relock(o: OrderUtxo, t: u16, recipient: ShieldedAddress, paid: u64, tree: u16, blinding: Fe): MakeParams
    requires paid <= o.sourceAmount
  {
    var terms := o.terms.(destinationAmount := 1, destination := recipient, takeMode := 0);
    MakeParams(o.(terms := terms, sourceAmount := o.sourceAmount - paid),
               PlainOutput(o.sourceMint, paid, blinding, recipient), o.Leaf(t), blinding, tree)
  }

  lemma RelockNotes(o: OrderUtxo, t: u16, recipient: ShieldedAddress, paid: u64, tree: u16, blinding: Fe)
    requires paid <= o.sourceAmount
    ensures var p := Relock(o, t, recipient, paid, tree, blinding);
            var change, order := MakerChange(p), OrderNote(p);
            && change.asset == order.asset == o.Note(t).asset
            && IsU64(change.amount) && IsU64(order.amount) && change.amount.n + order.amount.n == o.sourceAmount
  {
  }

  lemma RelockCovers(s: State, accounts: seq<Account>, o: OrderUtxo, t: u16, recipient: ShieldedAddress, paid: u64,
                     tree: u16, blinding: Fe) returns (source: Source)
    requires IsPayer(accounts) && Forwards(accounts, 1, ORDER_AUTHORITY)
    requires Live(s, o.Note(t)) && paid < o.sourceAmount
    ensures SourceCovers(s, accounts, Relock(o, t, recipient, paid, tree, blinding), source) && source.note == o.Note(t)
    ensures source.Nullified() == o.SpentBy(t)
  {
    var p := Relock(o, t, recipient, paid, tree, blinding);
    RelockNotes(o, t, recipient, paid, tree, blinding);
    source := AuthorityNoteCovers(s, accounts, ORDER_AUTHORITY, o.Note(t), MakerChange(p), OrderNote(p));
  }

  /** Part of the source of `o` in a plain note of the recipient's. */
  function Paid(o: OrderUtxo, recipient: ShieldedAddress, paid: u64, tree: u16, blinding: Fe): Utxo {
    PlainNote(recipient.OwnerHash(), Num(tree), AssetField(o.sourceMint.asset), Num(paid), blinding)
  }

  /** The documented claim that a locked note moves only by settling its order is false of the code:
      the make proof leaves both the spent note and the owner of what is created free. For every live
      order, every recipient and every part of the source short of the whole, at any nonnegative time,
      there is an accepted make that spends the order note, settles nothing, and pays that part to the
      recipient in a plain note. Whether a run contains such a make is what `SpendsNoOrder` says. */
  lemma MakeChangeIsFree(s: State, accounts: seq<Account>, o: OrderUtxo, t: u16, recipient: ShieldedAddress, paid: u64,
                         tree: u16, blinding: Fe) returns (step: Step, s': State)
    requires IsPayer(accounts) && Forwards(accounts, 1, ORDER_AUTHORITY)
    requires Live(s, o.Note(t)) && paid < o.sourceAmount && s.now >= 0
    ensures step.Make? && Next(s, step, s') && SpendsUnsettled(s, step, s', o, t)
    ensures Commitment(Paid(o, recipient, paid, tree, blinding)) in s'.leaves
  {
    var p := Relock(o, t, recipient, paid, tree, blinding);
    var source := RelockCovers(s, accounts, o, t, recipient, paid, tree, blinding);
    var h, w, after := MakeLands(s, accounts, [], p, source);
    step, s' := Make(accounts, MakeIxOf(accounts[0].address, [], p, source, w)), after;
    ConsumingMakeSpendsUnsettled(s, step, s', o, t);
  }

  /** In particular every live order of a nonzero amount can be spent by an accepted make. */
  lemma MakeCanSpendAnOrder(s: State, accounts: seq<Account>, o: OrderUtxo, t: u16) returns (step: Step, s': State)
    requires IsPayer(accounts) && Forwards(accounts, 1, ORDER_AUTHORITY)
    requires o.sourceAmount != 0 && Live(s, o.Note(t)) && s.now >= 0
    ensures step.Make? && Next(s, step, s') && SpendsUnsettled(s, step, s', o, t)
  {
    step, s' := MakeChangeIsFree(s, accounts, o, t, o.terms.destination, 0, 0, ZERO);
  }

  /* The marker is read off the raw outputs. */

  /** With a padding output between change and order, the make the SDK builds is accepted like any
      other, and the marker the program writes names the zero hash instead of the order's. */
  lemma GapMisnamesOrder(s: State, accounts: seq<Account>, tag: seq<Byte>, p: MakeParams, source: Source)
    returns (w: MakeCircuit.Witness, call: PoolCall)
    requires p.ToProofInputs().Ok? && SourceCovers(s, accounts, p, source) && s.now >= 0 && source.gap
    requires p.orderUtxo.sourceAmount != 0 && p.orderUtxo.terms.destinationAmount != 0
    requires p.orderUtxo.terms.takeMode <= 1
    ensures MakeCall(accounts, Some(MakeIxOf(accounts[0].address, tag, p, source, w))) == Ok(call)
    ensures Accepts(s, call.transact, call.signers) && w.orderUtxo == OrderNote(p)
    ensures call.transact.messages == [MarkerMessage(tag, Enc(ZERO), accounts[0].address)]
    ensures Enc(ZERO) != Enc(Commitment(OrderNote(p)))
  {
    var payer := accounts[0].address;
    MakeComplete(p);
    w := p.ToProofInputs().value.proof;
    call := PoolCall(MakeTransact(payer, tag, p, source), CallSigners(accounts[1..], ORDER_AUTHORITY));
    MakePassesChecks(accounts, tag, p, source, w, p.ToProofInputs().value.publicInputHash);
    LockIsAccepted(s, call.signers, source, MakerChange(p), OrderNote(p), p.outputTree, p.privateTxBlinding,
                   MakeProof(payer, tag, p, source).messages);
    if Enc(ZERO) == Enc(Commitment(OrderNote(p))) {
      EncInjective(ZERO, Commitment(OrderNote(p)));
    }
  }
}
