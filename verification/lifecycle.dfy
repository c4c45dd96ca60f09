/** What the indexer serves of an accepted make, and how far a live order can always be taken. */
module Lifecycle {
  import opened Ideal
  import opened Notes
  import opened Pool
  import opened Runtime
  import opened SwapProgram
  import opened Runs
  import opened Binding
  import opened Order
  import opened Settlement
  import opened CancelLiveness
  import opened Scan
  import opened Built
  import opened Marker
  import MakeCircuit
  import TakerDiscovery
  import MakerDiscovery

  /* What the indexer serves for a forwarded transaction. */

  // The payload parser and the sender's encryption context, which the repository does not show.
  datatype Index = Index(parse: seq<Byte> -> Option<OutputData>, txViewingPk: Option<seq<Byte>>,
                         salt: Option<seq<Byte>>)
  {
    function Slots(outputs: seq<TransactOutput>): (slots: seq<Slot>)
      ensures |slots| == |outputs|
      ensures forall i :: 0 <= i < |outputs| ==> slots[i].hash == outputs[i].utxoHash
    {
      seq(|outputs|, i requires 0 <= i < |outputs| =>
        Slot(outputs[i].utxoHash, parse(if outputs[i].data.Some? then outputs[i].data.value else [])))
    }

    function Serve(tx: Transact): ShieldedTx {
      ShieldedTx(txViewingPk, salt, Slots(tx.outputs), tx.messages, tx.inputs)
    }
  }

  /** The second output's data is the order's payload, sealed for the recipient at its slot index. */
  predicate Sealed(codec: Codec, tx: ShieldedTx, txKey: Fe, salt: seq<Byte>, recipient: seq<Byte>, p: Plaintext,
                   o: OrderUtxo) {
    |tx.slots| >= 2 && SealsPayload(codec, tx, txKey, salt, recipient, [tx.slots[0]], tx.slots[1], p, o)
  }

  /** Neither of the first two outputs is padding. */
  predicate NoGap(tx: Transact) {
    |tx.proof.outputs| >= 2 && tx.proof.outputs[0].Create? && tx.proof.outputs[1].Create?
  }

  /** The first two outputs of an accepted make without padding there: the change, and the order,
      whose hash no earlier slot has. */
  lemma MadeOutputs(s: State, accounts: seq<Account>, ix: MakeIx, call: PoolCall)
    requires MakeCall(accounts, Some(ix)) == Ok(call) && Accepts(s, call.transact, call.signers)
    requires NoGap(call.transact)
    ensures |call.transact.outputs| >= 2
    ensures call.transact.outputs[1].utxoHash
            == Enc(Commitment(ix.proof.orderUtxo)) != call.transact.outputs[0].utxoHash
  {
    MakeBinds(s, accounts, ix, call);
    MadeHashes(call.transact, ix.proof);
  }

  lemma MadeHashes(tx: Transact, w: MakeCircuit.Witness)
    requires MakeBound(w, tx) && OutputsMatch(tx) && NoGap(tx)
    ensures tx.outputs[1].utxoHash == Enc(Commitment(w.orderUtxo)) != tx.outputs[0].utxoHash
  {
    var hashes := OutputHashes(tx.proof.outputs);
    NonZeroTakesFirstTwo(hashes, Commitment(w.change), Commitment(w.orderUtxo));
    if Enc(hashes[0]) == Enc(hashes[1]) {
      EncInjective(hashes[0], hashes[1]);
    }
  }

  /** From program to taker: the transaction an accepted make forwards, as the indexer serves it,
      gives the committed order back to the taker whose tag the message bears, and names its payer as
      the maker. Program, pool and SDK all take part: the program writes the marker, the pool binds
      the outputs to the proof, and discovery reads both. */
  lemma TakerDiscoversMade(s: State, accounts: seq<Account>, ix: MakeIx, call: PoolCall, index: Index, codec: Codec,
                           txKey: Fe, salt: seq<Byte>, keypair: TakerDiscovery.Keypair, registry: Registry,
                           p: Plaintext, o: OrderUtxo, takerViewing: seq<Byte>)
    requires MakeCall(accounts, Some(ix)) == Ok(call) && Accepts(s, call.transact, call.signers) && NoGap(call.transact)
    requires ix.proof.orderUtxo == o.Note(INDEXED_TREE_ID)
    requires |call.transact.messages| == 1 && keypair.viewTag == Some(call.transact.messages[0].viewTag)
    requires codec.Lawful() && registry.Registers(o)
    requires Sealed(codec, index.Serve(call.transact), txKey, salt, codec.publicKey(keypair.viewingKey), p, o)
    ensures var scanned := TakerDiscovery.ScanTaker(codec, index.Serve(call.transact), keypair, registry);
            && scanned.Ok? && scanned.value.Some?
            && TakerDiscovery.IntoOrder(scanned.value.value, o.terms.destination, takerViewing)
               == Ok(TakerDiscovery.TakerOrder(o, accounts[0].address))
    ensures accounts[0].isSigner
  {
    MadeOutputs(s, accounts, ix, call);
    MarkerNamesOrder(s, accounts, ix, call);
    ServedToTaker(call.transact, accounts[0].address, index, codec, txKey, salt, keypair, registry, p, o, takerViewing);
  }

  lemma ServedToTaker(tx: Transact, payer: Address, index: Index, codec: Codec, txKey: Fe, salt: seq<Byte>,
                      keypair: TakerDiscovery.Keypair, registry: Registry, p: Plaintext, o: OrderUtxo,
                      takerViewing: seq<Byte>)
    requires |tx.outputs| >= 2 && tx.outputs[1].utxoHash == Enc(o.Leaf(INDEXED_TREE_ID)) != tx.outputs[0].utxoHash
    requires |tx.messages| == 1 && keypair.viewTag == Some(tx.messages[0].viewTag)
    requires tx.messages[0].data == MarkerBytes(Enc(o.Leaf(INDEXED_TREE_ID)), payer)
    requires codec.Lawful() && registry.Registers(o)
    requires Sealed(codec, index.Serve(tx), txKey, salt, codec.publicKey(keypair.viewingKey), p, o)
    ensures var scanned := TakerDiscovery.ScanTaker(codec, index.Serve(tx), keypair, registry);
            && scanned.Ok? && scanned.value.Some?
            && TakerDiscovery.IntoOrder(scanned.value.value, o.terms.destination, takerViewing)
               == Ok(TakerDiscovery.TakerOrder(o, payer))
  {
    var served := index.Serve(tx);
    var slots := served.slots;
    assert slots == [slots[0]] + [slots[1]] + slots[2..];
    assert served.messages[0] == Message(keypair.viewTag.value, slots[1].hash + payer);
    TakerDiscovery.SealedRoundTrip(codec, served, txKey, salt, keypair, registry, [slots[0]], slots[1], slots[2..], p,
                                   o, payer, takerViewing);
  }

  /** From program to maker: the same transaction gives the maker its order back, when its key is the
      one derived from the first nullifier the transaction publishes and the change carries no order
      payload. */
  lemma MakerDiscoversMade(s: State, accounts: seq<Account>, ix: MakeIx, call: PoolCall, index: Index,
                           reader: MakerDiscovery.Reader, keypair: MakerDiscovery.Keypair, p: Plaintext, o: OrderUtxo,
                           takerViewing: seq<Byte>)
    requires MakeCall(accounts, Some(ix)) == Ok(call) && Accepts(s, call.transact, call.signers) && NoGap(call.transact)
    requires ix.proof.orderUtxo == o.Note(INDEXED_TREE_ID) && call.transact.inputs != []
    requires reader.codec.Lawful() && reader.registry.Registers(o)
    requires keypair.address == Some(reader.maker) && reader.maker == o.terms.destination
    requires reader.codec.transactionViewingKey(keypair.viewingKey, call.transact.inputs[0]) == Some(reader.txKey)
    requires Sealed(reader.codec, index.Serve(call.transact), reader.txKey, reader.salt, takerViewing, p, o)
    requires var earlier := UnifiedSlots(reader.codec, [index.Serve(call.transact).slots[0]]);
             forall i :: 0 <= i < |earlier| ==> reader.NoOrderData(earlier[i])
    ensures MakerDiscovery.Scanned(reader.codec, index.Serve(call.transact), keypair, reader.registry)
            == Ok(Some(MakerDiscovery.MakerOrder(o, takerViewing)))
  {
    MadeOutputs(s, accounts, ix, call);
    ServedToMaker(call.transact, index, reader, keypair, p, o, takerViewing);
  }

  lemma ServedToMaker(tx: Transact, index: Index, reader: MakerDiscovery.Reader, keypair: MakerDiscovery.Keypair,
                      p: Plaintext, o: OrderUtxo, takerViewing: seq<Byte>)
    requires |tx.outputs| >= 2 && tx.outputs[1].utxoHash == Enc(o.Leaf(INDEXED_TREE_ID)) && tx.inputs != []
    requires reader.codec.Lawful() && reader.registry.Registers(o)
    requires keypair.address == Some(reader.maker) && reader.maker == o.terms.destination
    requires reader.codec.transactionViewingKey(keypair.viewingKey, tx.inputs[0]) == Some(reader.txKey)
    requires Sealed(reader.codec, index.Serve(tx), reader.txKey, reader.salt, takerViewing, p, o)
    requires var earlier := UnifiedSlots(reader.codec, [index.Serve(tx).slots[0]]);
             forall i :: 0 <= i < |earlier| ==> reader.NoOrderData(earlier[i])
    ensures MakerDiscovery.Scanned(reader.codec, index.Serve(tx), keypair, reader.registry)
            == Ok(Some(MakerDiscovery.MakerOrder(o, takerViewing)))
  {
    var served := index.Serve(tx);
    var slots := served.slots;
    assert slots == [slots[0]] + [slots[1]] + slots[2..];
    MakerDiscovery.SealedRoundTrip(reader, served, keypair, takerViewing, 0, [slots[0]], slots[1], slots[2..], p, o);
  }

  /* No order is stranded. */

  lemma CancelAfter(s: State, o: OrderUtxo, t: u16) returns (accounts: seq<Account>, ix: CancelIx)
    requires Live(s, o.Note(t)) && AllowsCancel(o) && s.now > o.terms.expiry
    ensures Next(s, Cancel(accounts, ix), Apply(s, ix.transact)) && Settles(s.now, Cancel(accounts, ix), o, t)
  {
    var maker := o.terms.destination.signing.key;
    accounts := OwnerAccounts(maker, ORDER_AUTHORITY);
    ix := CancelIxOf(o, t, 0, ZERO, ZERO);
    CancelLands(s, accounts, o, t, maker, 0, ZERO, ZERO);
  }

  /** Whatever run has led to a live order that allows a cancel, the run can be continued, without
      turning the clock back, to a cancel that settles it. */
  lemma NoOrderIsStranded(states: seq<State>, steps: seq<Step>, o: OrderUtxo, t: u16)
    returns (to: i64, cancel: Step, last: State)
    requires Run(states, steps) && Live(states[|steps|], o.Note(t)) && AllowsCancel(o)
    ensures to >= states[|steps|].now
    ensures Run(states + [states[|steps|].(now := to), last], steps + [Tick(to), cancel])
    ensures cancel.Cancel? && Settles(to, cancel, o, t)
  {
    var s := states[|steps|];
    to := if s.now > o.terms.expiry then s.now else o.terms.expiry + 1;
    var late := s.(now := to);
    var accounts, ix := CancelAfter(late, o, t);
    cancel, last := Cancel(accounts, ix), Apply(late, ix.transact);
    ExtendTwice(states, steps, Tick(to), late, cancel, last);
  }
}
