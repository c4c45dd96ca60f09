/** No order is stranded: the cancel the SDK builds after expiry is accepted. */
module CancelLiveness {
  import opened Ideal
  import opened Notes
  import opened Pool
  import opened Runtime
  import opened SwapProgram
  import opened Runs
  import opened Order
  import opened Binding
  import opened ProofInputs
  import opened SwapSdk
  import opened Settlement
  import opened Built
  import CancelCircuit

  function CancelParamsOf(o: OrderUtxo, t: u16, outputTree: u16, outputBlinding: Fe, txBlinding: Fe): CancelParams {
    CancelParams(o, o.SourceOutput(o.terms.destination, outputBlinding), txBlinding, t, outputTree)
  }

  function Refund(o: OrderUtxo, outputTree: u16, outputBlinding: Fe): Utxo {
    PlainNote(o.terms.destination.OwnerHash(), Num(outputTree), AssetField(o.sourceMint.asset), Num(o.sourceAmount),
              outputBlinding)
  }

  function CancelProof(o: OrderUtxo, t: u16, outputTree: u16, outputBlinding: Fe, txBlinding: Fe): TransactProof {
    RefundProof(o.Note(t), ORDER_AUTHORITY, Refund(o, outputTree, outputBlinding), outputTree, txBlinding)
  }

  lemma CancelParamsPass(o: OrderUtxo, t: u16, outputTree: u16, outputBlinding: Fe, txBlinding: Fe)
    ensures var r := CancelParamsOf(o, t, outputTree, outputBlinding, txBlinding).ToProofInputs();
            && r.Ok?
            && r.value.proof.privateTxHash
               == PrivateTxHash([o.Leaf(t)], [Commitment(Refund(o, outputTree, outputBlinding))], txBlinding)
  {
    RepresentationsAgree(o, o.terms.destination.viewing, t, 0);
    var refund := Commitment(Refund(o, outputTree, outputBlinding));
    PublicInputOfEncodings(PrivateTxHash([o.Leaf(t)], [refund], txBlinding), o.terms.expiry,
                           OwnerField(o.terms.destination.signing));
  }

  /** The SDK's cancel parameters pass its own checks, and its witness proves the transaction. */
  lemma CancelInputsOf(o: OrderUtxo, t: u16, outputTree: u16, outputBlinding: Fe, txBlinding: Fe)
    ensures var p := CancelParamsOf(o, t, outputTree, outputBlinding, txBlinding);
            var proof := CancelProof(o, t, outputTree, outputBlinding, txBlinding);
            && p.ToProofInputs().Ok?
            && p.ToProofInputs().value.proof.privateTxHash
               == PrivateTxHash(InputHashes(proof.inputs), OutputHashes(proof.outputs), txBlinding)
  {
    CancelParamsPass(o, t, outputTree, outputBlinding, txBlinding);
    RefundHashes(o.Note(t), ORDER_AUTHORITY, Refund(o, outputTree, outputBlinding), outputTree, txBlinding);
  }

  /** The processor forwards a cancel whose proof matches its public input. */
  lemma CancelPassesChecks(now: i64, accounts: seq<Account>, maker: Address, ix: CancelIx, h: Fe)
    requires RefundAccounts(accounts, maker, ORDER_AUTHORITY) && CheckAfterWindow(now, ix.orderExpiry)
    requires CancelPublicInput(ix.transact.privateTxHash, ix.orderExpiry, SolanaIdentity(maker)) == Some(h)
    requires CancelCircuit.Define(h, ix.proof)
    ensures CancelCall(now, accounts, Some(ix))
            == Ok(PoolCall(ix.transact, CallSigners(accounts[2..], ORDER_AUTHORITY)))
  {
    assert accounts[1..][0] == accounts[1];
  }

  /** The cancel instruction the SDK builds for `o`. */
  function CancelIxOf(o: OrderUtxo, t: u16, outputTree: u16, outputBlinding: Fe, txBlinding: Fe): CancelIx {
    CancelInputsOf(o, t, outputTree, outputBlinding, txBlinding);
    CancelIx(CancelParamsOf(o, t, outputTree, outputBlinding, txBlinding).ToProofInputs().value.proof, o.terms.expiry,
             BuildTransact(U64_MAX, CancelProof(o, t, outputTree, outputBlinding, txBlinding)))
  }

  lemma CancelIxPassesChecks(now: i64, accounts: seq<Account>, o: OrderUtxo, t: u16, maker: Address,
                             outputTree: u16, outputBlinding: Fe, txBlinding: Fe)
    requires o.sourceAmount != 0 && o.terms.destination.signing == Ed25519(maker)
    requires RefundAccounts(accounts, maker, ORDER_AUTHORITY) && CheckAfterWindow(now, o.terms.expiry)
    ensures var ix := CancelIxOf(o, t, outputTree, outputBlinding, txBlinding);
            CancelCall(now, accounts, Some(ix))
            == Ok(PoolCall(ix.transact, CallSigners(accounts[2..], ORDER_AUTHORITY)))
  {
    var p := CancelParamsOf(o, t, outputTree, outputBlinding, txBlinding);
    CancelInputsOf(o, t, outputTree, outputBlinding, txBlinding);
    CancelComplete(p);
    CancelPassesChecks(now, accounts, maker, CancelIxOf(o, t, outputTree, outputBlinding, txBlinding),
                       p.ToProofInputs().value.publicInputHash);
  }

  lemma CancelTransactAccepted(s: State, accounts: seq<Account>, o: OrderUtxo, t: u16, outputTree: u16,
                               outputBlinding: Fe, txBlinding: Fe)
    requires Live(s, o.Note(t)) && Forwards(accounts, 2, ORDER_AUTHORITY) && s.now >= 0
    ensures var tx := CancelIxOf(o, t, outputTree, outputBlinding, txBlinding).transact;
            Accepts(s, tx, CallSigners(accounts[2..], ORDER_AUTHORITY)) && Consumes(tx, o.Note(t))
  {
    AuthorityIsSigner(accounts, 2, ORDER_AUTHORITY);
    RefundIsAccepted(s, CallSigners(accounts[2..], ORDER_AUTHORITY), o.Note(t), ORDER_AUTHORITY,
                     Refund(o, outputTree, outputBlinding), outputTree, txBlinding);
  }

  lemma ForwardedCancelLands(s: State, accounts: seq<Account>, ix: CancelIx, signers: set<Fe>)
    requires CancelCall(s.now, accounts, Some(ix)) == Ok(PoolCall(ix.transact, signers))
    requires Accepts(s, ix.transact, signers) && NoAuthoritySigns(accounts)
    ensures Next(s, Cancel(accounts, ix), Apply(s, ix.transact))
  {
  }

  /** No stranded order: once the clock is past expiry, the cancel the SDK builds for a live order of
      an ed25519 maker is accepted, whatever output tree and blindings are chosen, and settles it. */
  lemma CancelLands(s: State, accounts: seq<Account>, o: OrderUtxo, t: u16, maker: Address,
                    outputTree: u16, outputBlinding: Fe, txBlinding: Fe)
    requires Live(s, o.Note(t)) && o.sourceAmount != 0
    requires o.terms.destination.signing == Ed25519(maker) && RefundAccounts(accounts, maker, ORDER_AUTHORITY)
    requires s.now > o.terms.expiry
    ensures var ix := CancelIxOf(o, t, outputTree, outputBlinding, txBlinding);
            && Next(s, Cancel(accounts, ix), Apply(s, ix.transact))
            && Settles(s.now, Cancel(accounts, ix), o, t)
  {
    var ix := CancelIxOf(o, t, outputTree, outputBlinding, txBlinding);
    CancelIxPassesChecks(s.now, accounts, o, t, maker, outputTree, outputBlinding, txBlinding);
    CancelTransactAccepted(s, accounts, o, t, outputTree, outputBlinding, txBlinding);
    ForwardedCancelLands(s, accounts, ix, CallSigners(accounts[2..], ORDER_AUTHORITY));
    ConsumedIsSettled(s, Cancel(accounts, ix), Apply(s, ix.transact), o, t);
  }

  /** The clock is a signed 64-bit value: it can pass an order's expiry exactly when the expiry is
      below the largest such value. A later expiry can never be cancelled. */
  lemma CancelWindowOpens(expiry: u64)
    ensures (exists now: i64 :: CheckAfterWindow(now, expiry)) <==> expiry < LAST_TIME
  {
    if expiry < 0x7FFF_FFFF_FFFF_FFFF {
      var last: i64 := LAST_TIME;
      assert CheckAfterWindow(last, expiry);
    }
  }

  /** What a cancel that settles an order says about the order. */
  lemma CancelledOrder(s: State, accounts: seq<Account>, ix: CancelIx, s': State, o: OrderUtxo, t: u16)
    requires Next(s, Cancel(accounts, ix), s') && Settles(s.now, Cancel(accounts, ix), o, t)
    ensures AllowsCancel(o)
  {
    CancelBinds(s, accounts, ix, StepCall(s.now, Cancel(accounts, ix)).value);
  }

  /** The moment after expiry, a pool holding the order, and the maker's own accounts. */
  lemma CancellableOrder(o: OrderUtxo, t: u16, maker: Address) returns (s: State, accounts: seq<Account>, ix: CancelIx)
    requires AllowsCancel(o) && o.terms.destination.signing == Ed25519(maker)
    ensures Next(s, Cancel(accounts, ix), Apply(s, ix.transact)) && Settles(s.now, Cancel(accounts, ix), o, t)
  {
    s := State(o.terms.expiry + 1, {o.Leaf(t)}, {});
    accounts := OwnerAccounts(maker, ORDER_AUTHORITY);
    ix := CancelIxOf(o, t, 0, ZERO, ZERO);
    CancelLands(s, accounts, o, t, maker, 0, ZERO, ZERO);
  }

  ghost predicate Cancellable(o: OrderUtxo, t: u16) {
    exists s: State, accounts: seq<Account>, ix: CancelIx, s': State ::
      Next(s, Cancel(accounts, ix), s') && Settles(s.now, Cancel(accounts, ix), o, t)
  }

  /** What a caller can check: a plain ed25519 maker, a nonzero source, and an expiry the signed clock
      can pass. */
  predicate AllowsCancel(o: OrderUtxo) {
    && o.terms.destination.signing.Ed25519? && !IsAuthority(o.terms.destination.signing.key)
    && o.terms.expiry < LAST_TIME && o.sourceAmount != 0
  }

  /** Exactly these orders can be cancelled at all. */
  lemma CancellableIff(o: OrderUtxo, t: u16)
    ensures Cancellable(o, t) <==> AllowsCancel(o)
  {
    if Cancellable(o, t) {
      var s: State, accounts: seq<Account>, ix: CancelIx, s': State :|
        Next(s, Cancel(accounts, ix), s') && Settles(s.now, Cancel(accounts, ix), o, t);
      CancelledOrder(s, accounts, ix, s', o, t);
    } else if AllowsCancel(o) {
      var s, accounts, ix := CancellableOrder(o, t, o.terms.destination.signing.key);
      assert Cancellable(o, t);
    }
  }

  /** At every nonnegative time exactly one of the two windows is open. */
  lemma WindowsPartitionTime(now: i64, expiry: u64)
    ensures CheckWithinWindow(now, expiry) || CheckAfterWindow(now, expiry) <==> now >= 0
    ensures !(CheckWithinWindow(now, expiry) && CheckAfterWindow(now, expiry))
  {
  }
}
