/** What index_taker and index_maker find over all pages. */
module Indexing {
  import opened Ideal
  import opened Notes
  import opened Pool
  import opened Order
  import opened Scan
  import opened Poll
  import TakerDiscovery
  import MakerDiscovery

  // The pages one collection reads.
  type TxPages = pages: seq<Result<Page<ShieldedTx>, SdkError>> | Chain(pages) witness [Err(SdkError(""))]

  // How a transaction holds an order: among other slots, at its slot index, sealed under the transaction's key.
  datatype Sealing = Sealing(
    txKey: Fe, salt: seq<Byte>, before: seq<Slot>, slot: Slot, after: seq<Slot>, plaintext: Plaintext)

  /* The scan each of them runs on one transaction. */

  // The taker's context: its keys and registry, and the user registry that resolves a maker's address.
  datatype TakerView = TakerView(
    codec: Codec, keypair: TakerDiscovery.Keypair, registry: Registry,
    resolve: Address -> Result<ShieldedAddress, SdkError>, takerViewing: seq<Byte>)
  {
    function ScanOne(tx: ShieldedTx): Result<Option<TakerDiscovery.TakerOrder>, SdkError> {
      match TakerDiscovery.ScanTaker(codec, tx, keypair, registry)
      case Err(e) => Err(e)
      case Ok(None) => Ok(None)
      case Ok(Some(candidate)) =>
        match resolve(candidate.makerPubkey)
        case Err(e) => Err(e)
        case Ok(destination) =>
          match TakerDiscovery.IntoOrder(candidate, destination, takerViewing)
          case Err(e) => Err(e)
          case Ok(order) => Ok(Some(order))
    }

    function Scan(): ShieldedTx -> Result<Option<TakerDiscovery.TakerOrder>, SdkError> {
      tx => ScanOne(tx)
    }

    /** What one collection over the pages yields. */
    function Collection(pages: TxPages): Result<seq<TakerDiscovery.TakerOrder>, SdkError> {
      if keypair.viewTag.None? then Err(SdkError("view tag")) else Collected(pages, 0, Scan())
    }

    /** The first message under the taker's tag. */
    function Tagged(tx: ShieldedTx): Option<Message>
      requires keypair.viewTag.Some?
    {
      TakerDiscovery.FindMessage(tx.messages, keypair.viewTag.value)
    }
  }

  datatype MakerView = MakerView(codec: Codec, keypair: MakerDiscovery.Keypair, viewTag: Option<seq<Byte>>,
                                 registry: Registry)
  {
    function Scan(): ShieldedTx -> Result<Option<MakerDiscovery.MakerOrder>, SdkError> {
      tx => MakerDiscovery.Scanned(codec, tx, keypair, registry)
    }

    function Collection(pages: TxPages): Result<seq<MakerDiscovery.MakerOrder>, SdkError> {
      if viewTag.None? then Err(SdkError("view tag")) else Collected(pages, 0, Scan())
    }
  }

  /* One collection over the pages of the indexer. */

  method CollectTakerOrders(v: TakerView, pages: TxPages) returns (r: Result<seq<TakerDiscovery.TakerOrder>, SdkError>)
    ensures r == v.Collection(pages)
  {
    var tag := match v.keypair.viewTag case Some(t) => Ok(t) case None => Err(SdkError("view tag"));
    r := CollectTagged(tag, pages, v.Scan());
  }

  method CollectMakerOrders(v: MakerView, pages: TxPages) returns (r: Result<seq<MakerDiscovery.MakerOrder>, SdkError>)
    ensures r == v.Collection(pages)
  {
    var tag := match v.viewTag case Some(t) => Ok(t) case None => Err(SdkError("view tag"));
    r := CollectTagged(tag, pages, v.Scan());
  }

  /* Polling: the pages may differ from one attempt to the next. */

  /** index_taker: the first collection that finds an order or fails. */
  method IndexTaker(v: TakerView, pagesAt: nat -> TxPages, deadline: nat)
    returns (r: Indexed<TakerDiscovery.TakerOrder, SdkError>, attempts: nat)
    ensures attempts <= deadline && forall k :: 0 <= k < attempts ==> v.Collection(pagesAt(k)) == Ok([])
    ensures match r
            case Found(items) => items != [] && v.Collection(pagesAt(attempts)) == Ok(items)
            case Failed(error) => v.Collection(pagesAt(attempts)) == Err(error)
            case TimedOut => attempts == deadline && v.Collection(pagesAt(deadline)) == Ok([])
  {
    var collect := (k: nat) => v.Collection(pagesAt(k));
    r, attempts := IndexUntil(deadline, collect);
    forall k | 0 <= k < attempts
      ensures v.Collection(pagesAt(k)) == Ok([])
    {
      assert collect(k) == Ok([]);
    }
  }

  /** index_maker: the same over the maker's scan. */
  method IndexMaker(v: MakerView, pagesAt: nat -> TxPages, deadline: nat)
    returns (r: Indexed<MakerDiscovery.MakerOrder, SdkError>, attempts: nat)
    ensures attempts <= deadline && forall k :: 0 <= k < attempts ==> v.Collection(pagesAt(k)) == Ok([])
    ensures match r
            case Found(items) => items != [] && v.Collection(pagesAt(attempts)) == Ok(items)
            case Failed(error) => v.Collection(pagesAt(attempts)) == Err(error)
            case TimedOut => attempts == deadline && v.Collection(pagesAt(deadline)) == Ok([])
  {
    var collect := (k: nat) => v.Collection(pagesAt(k));
    r, attempts := IndexUntil(deadline, collect);
    forall k | 0 <= k < attempts
      ensures v.Collection(pagesAt(k)) == Ok([])
    {
      assert collect(k) == Ok([]);
    }
  }

  /** Every order that is found comes from a fetched transaction, in order and once each, and none of
      the fetched transactions that yields an order is missed. */
  ghost predicate FindsAll<T>(scan: ShieldedTx -> Result<Option<T>, SdkError>, txs: seq<ShieldedTx>, found: seq<T>,
                        positions: seq<nat>) {
    && |positions| == |found|
    && (forall k :: 0 <= k < |positions| ==> positions[k] < |txs| && scan(txs[positions[k]]) == Ok(Some(found[k])))
    && (forall k, l :: 0 <= k < l < |positions| ==> positions[k] < positions[l])
    && (forall i :: 0 <= i < |txs| && scan(txs[i]).Ok? && scan(txs[i]).value.Some? ==> i in positions)
  }

  /** On a chain that fetches without error, collecting succeeds exactly when every scan does, and then
      it finds exactly the orders. */
  lemma CollectsExactly<T>(scan: ShieldedTx -> Result<Option<T>, SdkError>, pages: seq<Result<Page<ShieldedTx>,
                           SdkError>>)
    returns (positions: seq<nat>)
    requires Chain(pages) && Fetched(pages, 0).1.None?
    ensures var txs := Fetched(pages, 0).0;
            && (Collected(pages, 0, scan).Ok? <==> forall i :: 0 <= i < |txs| ==> scan(txs[i]).Ok?)
            && (Collected(pages, 0, scan).Ok? ==> FindsAll(scan, txs, Collected(pages, 0, scan).value, positions))
  {
    CollectedIsScan(pages, 0, scan);
    positions := ScanAllExactly(scan, Fetched(pages, 0).0);
  }

  /** A collection fails with the error of its first failing scan or, if there is none, of the fetch. */
  lemma CollectsFirstError<T>(scan: ShieldedTx -> Result<Option<T>, SdkError>,
                              pages: seq<Result<Page<ShieldedTx>, SdkError>>)
    requires Chain(pages) && Collected(pages, 0, scan).Err?
    ensures var (txs, error) := Fetched(pages, 0);
            || (exists k :: 0 <= k < |txs| && scan(txs[k]) == Err(Collected(pages, 0, scan).error)
                  && forall i :: 0 <= i < k ==> scan(txs[i]).Ok?)
            || (error == Some(Collected(pages, 0, scan).error) && forall i :: 0 <= i < |txs| ==> scan(txs[i]).Ok?)
  {
    CollectedIsScan(pages, 0, scan);
    var txs := Fetched(pages, 0).0;
    if ScanAll(scan, txs).Err? {
      var k := ScanAllFirstError(scan, txs);
    } else {
      var positions := ScanAllExactly(scan, txs);
    }
  }

  /* The taker. */

  /** The taker's scan passes over a transaction exactly when no message bears its tag; a transaction
      that bears it yields an order or fails. */
  lemma TakerPassesOverIff(v: TakerView, tx: ShieldedTx)
    requires v.keypair.viewTag.Some?
    ensures v.ScanOne(tx) == Ok(None) <==> v.Tagged(tx).None?
  {
  }

  /** Marker data is read at exactly 64 bytes. */
  lemma TakerFailsOnMarker(v: TakerView, tx: ShieldedTx)
    requires v.keypair.viewTag.Some? && v.Tagged(tx).Some? && |v.Tagged(tx).value.data| != 64
    ensures v.ScanOne(tx).Err?
  {
  }

  /** The transaction seals `o` for the taker, and its first message under the taker's tag marks that leaf
      and the maker's key. */
  ghost predicate Receives(v: TakerView, tx: ShieldedTx, s: Sealing, o: OrderUtxo, makerPubkey: Address) {
    && v.codec.Lawful() && v.registry.Registers(o) && v.keypair.viewTag.Some?
    && SealsOrder(v.codec, tx, s.txKey, s.salt, v.codec.publicKey(v.keypair.viewingKey), s.before, s.slot, s.after,
                  s.plaintext, o)
    && (forall i :: 0 <= i < |s.before| ==> s.before[i].hash != s.slot.hash)
    && TakerDiscovery.BearsMarker(tx.messages, v.keypair.viewTag.value, s.slot.hash, makerPubkey)
  }

  /** Of a transaction that seals an order for it the taker's scan yields exactly that order, when the
      marked key is registered at the maker's address of the terms; otherwise it fails. */
  lemma TakerFindsSealed(v: TakerView, tx: ShieldedTx, s: Sealing, o: OrderUtxo, makerPubkey: Address)
    requires Receives(v, tx, s, o, makerPubkey)
    ensures v.ScanOne(tx).Ok? <==> v.resolve(makerPubkey) == Ok(o.terms.destination)
    ensures v.ScanOne(tx).Ok? ==> v.ScanOne(tx) == Ok(Some(TakerDiscovery.TakerOrder(o, makerPubkey)))
  {
    TakerDiscovery.SealedRoundTrip(v.codec, tx, s.txKey, s.salt, v.keypair, v.registry, s.before, s.slot, s.after,
                                   s.plaintext, o, makerPubkey, v.takerViewing);
    var c := TakerDiscovery.ScanTaker(v.codec, tx, v.keypair, v.registry).value.value;
    if v.resolve(makerPubkey).Ok? {
      TakerDiscovery.IntoOrderIff(c, v.resolve(makerPubkey).value, v.takerViewing, o);
    }
  }

  /** Exactly which orders the taker's scan of one transaction yields: `o` with `makerPubkey` if and only if
      the address registered for that key is the one in `o`, both assets are listed, the first message under
      the tag marks `o`'s leaf with that key, and the first confidential slot of the leaf decodes to `o`. */
  lemma TakerFindsIff(v: TakerView, tx: ShieldedTx, o: OrderUtxo, makerPubkey: Address)
    ensures v.ScanOne(tx) == Ok(Some(TakerDiscovery.TakerOrder(o, makerPubkey)))
            <==> && v.resolve(makerPubkey) == Ok(o.terms.destination)
                 && v.keypair.viewTag.Some? && v.registry.Registers(o)
                 && TakerDiscovery.BearsMarker(tx.messages, v.keypair.viewTag.value, Enc(o.Leaf(0)), makerPubkey)
                 && exists k :: TakerDiscovery.DecodesAt(v.codec, tx, v.keypair.viewingKey, k, o)
  {
    TakerDiscovery.TakerOrderIff(v.codec, tx, v.keypair, v.registry, o, makerPubkey, v.takerViewing);
    FoundIffRead(v, tx, o, makerPubkey);
  }

  /** The two stages of the scan: what is read with the maker's address of `o`, and that address. */
  lemma FoundIffRead(v: TakerView, tx: ShieldedTx, o: OrderUtxo, makerPubkey: Address)
    ensures v.ScanOne(tx) == Ok(Some(TakerDiscovery.TakerOrder(o, makerPubkey)))
            <==> && v.resolve(makerPubkey) == Ok(o.terms.destination)
                 && var scanned := TakerDiscovery.ScanTaker(v.codec, tx, v.keypair, v.registry);
                    scanned.Ok? && scanned.value.Some?
                    && TakerDiscovery.IntoOrder(scanned.value.value, o.terms.destination, v.takerViewing)
                       == Ok(TakerDiscovery.TakerOrder(o, makerPubkey))
  {
  }

  /** A scan of a fetched transaction that yields an item puts it into every collection that succeeds. */
  lemma ScannedIsCollected<T>(scan: ShieldedTx -> Result<Option<T>, SdkError>, pages: TxPages, tx: ShieldedTx)
    requires Collected(pages, 0, scan).Ok? && tx in Fetched(pages, 0).0
    ensures scan(tx).Ok? && (scan(tx).value.Some? ==> scan(tx).value.value in Collected(pages, 0, scan).value)
  {
    var txs := Fetched(pages, 0).0;
    CollectedIsScan(pages, 0, scan);
    var positions := ScanAllExactly(scan, txs);
    var i :| 0 <= i < |txs| && txs[i] == tx;
    if scan(tx).value.Some? {
      var k :| 0 <= k < |positions| && positions[k] == i;
      assert scan(txs[positions[k]]) == Ok(Some(Collected(pages, 0, scan).value[k]));
    }
  }

  /** Discovery over all pages: a collection that fetched such a transaction and succeeds has resolved the
      maker's address and contains the order. */
  lemma TakerCollectsSealed(v: TakerView, pages: TxPages, tx: ShieldedTx, s: Sealing, o: OrderUtxo,
                            makerPubkey: Address)
    requires Receives(v, tx, s, o, makerPubkey) && tx in Fetched(pages, 0).0 && v.Collection(pages).Ok?
    ensures v.resolve(makerPubkey) == Ok(o.terms.destination)
    ensures TakerDiscovery.TakerOrder(o, makerPubkey) in v.Collection(pages).value
  {
    ScannedIsCollected(v.Scan(), pages, tx);
    assert v.Scan()(tx) == v.ScanOne(tx);
    TakerFindsSealed(v, tx, s, o, makerPubkey);
  }

  /** The taker's collection is all or nothing: it succeeds exactly when every fetched transaction under
      its tag carries an order. One message under the tag whose data is no marker makes it fail,
      whatever else the pages hold. */
  lemma TakerCollectsIff(v: TakerView, pages: TxPages)
    requires Fetched(pages, 0).1.None? && v.keypair.viewTag.Some?
    ensures var txs := Fetched(pages, 0).0;
            && (v.Collection(pages).Ok? <==>
                  forall i ::
                    0 <= i < |txs| && v.Tagged(txs[i]).Some? ==> v.ScanOne(txs[i]).Ok? && v.ScanOne(txs[i]).value.Some?)
            && ((exists i :: 0 <= i < |txs| && v.Tagged(txs[i]).Some? && |v.Tagged(txs[i]).value.data| != 64) ==>
                  v.Collection(pages).Err?)
  {
    var txs := Fetched(pages, 0).0;
    var positions := CollectsExactly(v.Scan(), pages);
    forall i | 0 <= i < |txs|
      ensures v.Scan()(txs[i]) == v.ScanOne(txs[i])
      ensures v.ScanOne(txs[i]) == Ok(None) <==> v.Tagged(txs[i]).None?
    {
      TakerPassesOverIff(v, txs[i]);
    }
  }

  /** Every order the taker collects opens the leaf its transaction marks. */
  lemma TakerCollectsSoundly(v: TakerView, tx: ShieldedTx, found: TakerDiscovery.TakerOrder)
    returns (c: TakerDiscovery.Candidate)
    requires v.ScanOne(tx) == Ok(Some(found))
    ensures TakerDiscovery.ScanTaker(v.codec, tx, v.keypair, v.registry) == Ok(Some(c))
    ensures c.orderUtxoHash == Enc(found.orderUtxo.Leaf(INDEXED_TREE_ID))
    ensures v.resolve(c.makerPubkey) == Ok(found.orderUtxo.terms.destination)
    ensures forall o: OrderUtxo :: c.orderUtxoHash == Enc(o.Leaf(INDEXED_TREE_ID)) ==> SameOpening(found.orderUtxo, o)
  {
    c := TakerDiscovery.ScanTaker(v.codec, tx, v.keypair, v.registry).value.value;
    var destination := v.resolve(c.makerPubkey).value;
    var order := TakerDiscovery.Rebuilt(c, destination);
    RepresentationsAgree(order, v.takerViewing, INDEXED_TREE_ID, 0);
    forall o: OrderUtxo | c.orderUtxoHash == Enc(o.Leaf(INDEXED_TREE_ID))
      ensures SameOpening(found.orderUtxo, o)
    {
      TakerDiscovery.IntoOrderIff(c, destination, v.takerViewing, o);
    }
  }

  /* The maker. */

  /** The transaction seals `o`, and its key is the one the maker derives from its `k`-th nullifier; the
      slots before the order's hold no order data. */
  ghost predicate Wrote(v: MakerView, tx: ShieldedTx, s: Sealing, takerViewing: seq<Byte>, k: nat, o: OrderUtxo) {
    var reader := MakerDiscovery.Reader(v.codec, v.registry, o.terms.destination, s.txKey, s.salt);
    var earlier := UnifiedSlots(v.codec, s.before);
    && v.codec.Lawful() && v.registry.Registers(o) && v.keypair.address == Some(o.terms.destination)
    && MakerDiscovery.AuthoredAt(v.codec, v.keypair, v.codec.publicKey(s.txKey), tx.nullifiers, k, s.txKey)
    && SealsOrder(v.codec, tx, s.txKey, s.salt, takerViewing, s.before, s.slot, s.after, s.plaintext, o)
    && forall i :: 0 <= i < |earlier| ==> reader.NoOrderData(earlier[i])
  }

  /** Of a transaction it wrote the maker's scan yields its order, for the taker whose viewing key the
      payload is sealed for; and so does every collection that fetched it and succeeds. */
  lemma MakerCollectsSealed(v: MakerView, pages: TxPages, tx: ShieldedTx, s: Sealing, takerViewing: seq<Byte>, k: nat,
                            o: OrderUtxo)
    requires Wrote(v, tx, s, takerViewing, k, o)
    ensures v.Scan()(tx) == Ok(Some(MakerDiscovery.MakerOrder(o, takerViewing)))
    ensures tx in Fetched(pages, 0).0 && v.Collection(pages).Ok? ==>
              MakerDiscovery.MakerOrder(o, takerViewing) in v.Collection(pages).value
  {
    var reader := MakerDiscovery.Reader(v.codec, v.registry, o.terms.destination, s.txKey, s.salt);
    MakerDiscovery.SealedRoundTrip(reader, tx, v.keypair, takerViewing, k, s.before, s.slot, s.after, s.plaintext, o);
    if tx in Fetched(pages, 0).0 && v.Collection(pages).Ok? {
      ScannedIsCollected(v.Scan(), pages, tx);
    }
  }

  /** The maker's scan never fails on a transaction: bad slots are passed over. So its collection
      succeeds on every chain that fetches, and finds exactly the orders. */
  lemma MakerCollectsAlways(v: MakerView, pages: TxPages) returns (positions: seq<nat>)
    requires Fetched(pages, 0).1.None? && v.keypair.address.Some? && v.viewTag.Some?
    ensures v.Collection(pages).Ok?
    ensures FindsAll(v.Scan(), Fetched(pages, 0).0, v.Collection(pages).value, positions)
  {
    positions := CollectsExactly(v.Scan(), pages);
  }
}
