/** One order through every layer: the SDK's make is accepted, taker and maker read the order back
    from what the indexer serves, and the order can be settled exactly as its terms allow. */
module EndToEnd {
  import opened Ideal
  import opened Notes
  import opened Pool
  import opened Runtime
  import opened SwapProgram
  import opened Runs
  import opened Order
  import opened ProofInputs
  import opened SwapSdk
  import opened Settlement
  import opened Built
  import opened MakeLiveness
  import opened Scan
  import opened Accounting
  import opened Lifecycle
  import opened Settleable
  import opened Indexing
  import opened Poll
  import CancelLiveness
  import MakeCircuit
  import MakerDiscovery
  import TakerDiscovery

  /** The slot the indexer serves for the change, which publishes no data. */
  function ChangeSlot(index: Index, p: MakeParams): Slot {
    Slot(Enc(Commitment(MakerChange(p))), index.parse([]))
  }

  /** What the make publishes for the order: its payload, sealed for the recipient under the
      transaction's key at the slot index after the change. */
  predicate Publishes(index: Index, codec: Codec, p: MakeParams, source: Source, txKey: Fe, salt: seq<Byte>,
                      recipient: seq<Byte>, plaintext: Plaintext) {
    && !source.gap && source.ciphertext.Some?
    && index.salt == Some(salt) && index.txViewingPk == Some(codec.publicKey(txKey))
    && Carries(plaintext, p.orderUtxo)
    && var slot := Slot(Enc(Commitment(OrderNote(p))), index.parse(source.ciphertext.value));
       IsUnified(codec, slot)
       && slot.data.value.blob[1..]
          == codec.seal(recipient, txKey, salt, DataBearing([ChangeSlot(index, p)]), plaintext)
  }

  /** The two slots the indexer serves for such a make. */
  lemma ServedSlots(payer: Address, tag: seq<Byte>, p: MakeParams, source: Source, index: Index)
    requires !source.gap && source.ciphertext.Some?
    ensures var tx := MakeTransact(payer, tag, p, source);
            && NoGap(tx) && tx.messages == [Message(tag, MarkerBytes(Enc(Commitment(OrderNote(p))), payer))]
            && tx.inputs != [] && tx.inputs[0] == Enc(source.Nullified())
            && index.Slots(tx.outputs)
               == [ChangeSlot(index, p), Slot(Enc(Commitment(OrderNote(p))), index.parse(source.ciphertext.value))]
  {
    var proof := MakeProof(payer, tag, p, source);
    assert proof.outputs == [Create(MakerChange(p)), Create(OrderNote(p))];
    assert proof.ciphertexts == [None, source.ciphertext];
    var tx := MakeTransact(payer, tag, p, source);
    assert tx.outputs == [TransactOutput(Enc(Commitment(MakerChange(p))), None),
                          TransactOutput(Enc(Commitment(OrderNote(p))), source.ciphertext)];
  }

  lemma ServedIsSealed(payer: Address, tag: seq<Byte>, p: MakeParams, source: Source, index: Index, codec: Codec,
                       txKey: Fe, salt: seq<Byte>, recipient: seq<Byte>, plaintext: Plaintext)
    requires Publishes(index, codec, p, source, txKey, salt, recipient, plaintext)
    ensures Sealed(codec, index.Serve(MakeTransact(payer, tag, p, source)), txKey, salt, recipient, plaintext,
                   p.orderUtxo)
  {
    ServedSlots(payer, tag, p, source, index);
  }

  // The parties: the maker reading with the transaction's key, and the taker.
  datatype Parties = Parties(
    reader: MakerDiscovery.Reader, maker: MakerDiscovery.Keypair, taker: TakerDiscovery.Keypair,
    takerViewing: seq<Byte>)

  /** The maker made the transaction, the taker is the recipient, and both know the order's assets. */
  predicate Fit(parties: Parties, p: MakeParams, source: Source, tag: seq<Byte>) {
    var o := p.orderUtxo;
    && parties.reader.registry.Registers(o)
    && parties.maker.address == Some(o.terms.destination) && parties.reader.maker == o.terms.destination
    && parties.reader.codec.transactionViewingKey(parties.maker.viewingKey, Enc(source.Nullified()))
       == Some(parties.reader.txKey)
    && parties.taker.viewTag == Some(tag)
    && parties.takerViewing == parties.reader.codec.publicKey(parties.taker.viewingKey)
  }

  /** What taker and maker read from the transaction `tx` as it is served. */
  predicate BothRead(parties: Parties, index: Index, tx: Transact, o: OrderUtxo, payer: Address) {
    var codec, registry := parties.reader.codec, parties.reader.registry;
    var scanned := TakerDiscovery.ScanTaker(codec, index.Serve(tx), parties.taker, registry);
    && scanned.Ok? && scanned.value.Some?
    && TakerDiscovery.IntoOrder(scanned.value.value, o.terms.destination, parties.takerViewing)
       == Ok(TakerDiscovery.TakerOrder(o, payer))
    && MakerDiscovery.Scanned(codec, index.Serve(tx), parties.maker, registry)
       == Ok(Some(MakerDiscovery.MakerOrder(o, parties.takerViewing)))
  }

  lemma BothReadMade(s: State, accounts: seq<Account>, ix: MakeIx, call: PoolCall, tag: seq<Byte>, p: MakeParams,
                     source: Source, index: Index, parties: Parties, plaintext: Plaintext)
    requires accounts != [] && MakeCall(accounts, Some(ix)) == Ok(call) && Accepts(s, call.transact, call.signers)
    requires call.transact == MakeTransact(accounts[0].address, tag, p, source) && ix.proof.orderUtxo == OrderNote(p)
    requires p.outputTree == 0 && parties.reader.codec.Lawful() && Fit(parties, p, source, tag)
    requires Publishes(index, parties.reader.codec, p, source, parties.reader.txKey, parties.reader.salt,
                       parties.takerViewing, plaintext)
    requires ChangeIsSilent(parties.reader, index, p)
    ensures BothRead(parties, index, call.transact, p.orderUtxo, accounts[0].address)
  {
    var payer, r := accounts[0].address, parties.reader;
    ServedSlots(payer, tag, p, source, index);
    ServedIsSealed(payer, tag, p, source, index, r.codec, r.txKey, r.salt, parties.takerViewing, plaintext);
    TakerDiscoversMade(s, accounts, ix, call, index, r.codec, r.txKey, r.salt, parties.taker, r.registry, plaintext,
                       p.orderUtxo, parties.takerViewing);
    MakerDiscoversMade(s, accounts, ix, call, index, r, parties.maker, plaintext, p.orderUtxo, parties.takerViewing);
  }

  /** Over all pages: once both have read it, every collection of the taker's or the maker's that fetched the
      transaction and succeeds contains the order, and the taker's only succeeds if the payer is registered
      at the maker's address. */
  lemma MadeIsIndexed(parties: Parties, index: Index, tx: Transact, o: OrderUtxo, payer: Address, v: TakerView,
                      m: MakerView, pages: TxPages)
    requires BothRead(parties, index, tx, o, payer) && index.Serve(tx) in Fetched(pages, 0).0
    requires v.codec == m.codec == parties.reader.codec && v.registry == m.registry == parties.reader.registry
    requires v.keypair == parties.taker && v.takerViewing == parties.takerViewing && m.keypair == parties.maker
    ensures v.Collection(pages).Ok? ==>
              && v.resolve(payer) == Ok(o.terms.destination)
              && TakerDiscovery.TakerOrder(o, payer) in v.Collection(pages).value
    ensures m.Collection(pages).Ok? ==>
              MakerDiscovery.MakerOrder(o, parties.takerViewing) in m.Collection(pages).value
  {
    if v.Collection(pages).Ok? {
      ScannedIsCollected(v.Scan(), pages, index.Serve(tx));
      assert v.Scan()(index.Serve(tx)) == v.ScanOne(index.Serve(tx));
      ReadIsResolved(parties, index, tx, o, payer, v);
    }
    if m.Collection(pages).Ok? {
      ScannedIsCollected(m.Scan(), pages, index.Serve(tx));
      assert m.Scan()(index.Serve(tx))
             == MakerDiscovery.Scanned(m.codec, index.Serve(tx), m.keypair, m.registry);
    }
  }

  lemma ReadIsResolved(parties: Parties, index: Index, tx: Transact, o: OrderUtxo, payer: Address, v: TakerView)
    requires BothRead(parties, index, tx, o, payer) && v.ScanOne(index.Serve(tx)).Ok?
    requires v.codec == parties.reader.codec && v.registry == parties.reader.registry
    requires v.keypair == parties.taker && v.takerViewing == parties.takerViewing
    ensures v.resolve(payer) == Ok(o.terms.destination)
    ensures v.ScanOne(index.Serve(tx)) == Ok(Some(TakerDiscovery.TakerOrder(o, payer)))
  {
    var served := index.Serve(tx);
    TakerDiscovery.TakerOrderIff(v.codec, served, v.keypair, v.registry, o, payer, v.takerViewing);
    var c := TakerDiscovery.ScanTaker(v.codec, served, v.keypair, v.registry).value.value;
    assert c.makerPubkey == payer && TakerDiscovery.Rebuilt(c, o.terms.destination) == o;
    var destination := v.resolve(payer).value;
    RepresentationsAgree(o, v.takerViewing, INDEXED_TREE_ID, 0);
    TakerDiscovery.IntoOrderIff(c, destination, v.takerViewing, o);
  }

  /** The change's slot holds no order payload for the maker. */
  predicate ChangeIsSilent(reader: MakerDiscovery.Reader, index: Index, p: MakeParams) {
    var earlier := UnifiedSlots(reader.codec, [ChangeSlot(index, p)]);
    forall i :: 0 <= i < |earlier| ==> reader.NoOrderData(earlier[i])
  }

  /** A newly appended order is live: its nullifier cannot have been published before, nor by the make
      that appends it. */
  lemma MadeOrderIsLive(s: State, p: MakeParams, source: Source, tx: Transact)
    requires SpentIsAppended(Orders, s) && Commitment(OrderNote(p)) !in s.leaves && Commitment(source.note) in s.leaves
    requires tx.proof.inputs == [Spend(source.note, source.signer, source.secret), PaddingInput(source.padding)]
    requires Commitment(OrderNote(p)) in Apply(s, tx).leaves
    ensures Live(Apply(s, tx), OrderNote(p))
  {
    assert IsOrderNote(OrderNote(p));
    assert AuthorityNullifier(OrderNote(p)) !in s.spent;
    assert AuthorityNullifier(OrderNote(p)) !in Published(tx.proof.inputs);
  }

  /** From make to settlement. A make the SDK builds over a covering source, publishing the order's
      sealed payload, is accepted; the taker and the maker each read exactly the order back from what
      the indexer serves of it; the order is live; and from there it can be settled exactly when its
      terms allow a cancel, or its window has not passed and they allow a take. */
  lemma FromMakeToSettlement(s: State, accounts: seq<Account>, tag: seq<Byte>, p: MakeParams, source: Source,
                             index: Index, parties: Parties, plaintext: Plaintext)
    returns (ix: MakeIx, tx: Transact, s': State)
    requires p.ToProofInputs().Ok? && SourceCovers(s, accounts, p, source) && s.now >= 0
    requires p.orderUtxo.sourceAmount != 0 && p.orderUtxo.terms.destinationAmount != 0
    requires p.orderUtxo.terms.takeMode <= 1 && p.outputTree == 0
    requires SpentIsAppended(Orders, s) && Commitment(OrderNote(p)) !in s.leaves
    requires parties.reader.codec.Lawful() && Fit(parties, p, source, tag) && ChangeIsSilent(parties.reader, index, p)
    requires Publishes(index, parties.reader.codec, p, source, parties.reader.txKey, parties.reader.salt,
                       parties.takerViewing, plaintext)
    ensures Next(s, Make(accounts, ix), s') && s' == Apply(s, tx)
    ensures BothRead(parties, index, tx, p.orderUtxo, accounts[0].address)
    ensures Live(s', p.orderUtxo.Note(0))
    ensures CanBeSettled(s', p.orderUtxo, 0)
            <==> || CancelLiveness.AllowsCancel(p.orderUtxo)
                 || (s.now <= p.orderUtxo.terms.expiry && AllowsTake(p.orderUtxo))
  {
    var h, w, after := MakeLands(s, accounts, tag, p, source);
    ix, tx, s' := MakeIxOf(accounts[0].address, tag, p, source, w), MakeTransact(accounts[0].address, tag, p,
                                                                                 source), after;
    BothReadMade(s, accounts, ix, PoolCall(tx, CallSigners(accounts[1..], ORDER_AUTHORITY)), tag, p, source, index,
                 parties, plaintext);
    MadeOrderIsLive(s, p, source, tx);
    CanBeSettledIff(s', p.orderUtxo, 0);
  }
}
