/** The taker's side of order discovery. */
module TakerDiscovery {
  import opened Ideal
  import opened Notes
  import opened Pool
  import opened Order
  import opened Scan
  import opened SwapProgram

  datatype Keypair = Keypair(viewTag: Option<seq<Byte>>, viewingKey: Fe)

  datatype Candidate = Candidate(
    sourceAmount: u64, sourceMint: Mint, destinationMint: Address, blinding: Fe, orderData: PlainTextData,
    makerPubkey: Address, orderUtxoHash: Bytes32)

  datatype TakerOrder = TakerOrder(orderUtxo: OrderUtxo, makerPubkey: Address)

  datatype MarkerData = MarkerData(orderUtxoHash: Bytes32, makerPubkey: Address)

  /** MarkerData::try_from_slice: exactly two 32-byte fields. */
  function ReadMarker(data: seq<Byte>): (r: Option<MarkerData>)
    ensures r.Some? ==> data == MarkerBytes(r.value.orderUtxoHash, r.value.makerPubkey)
  {
    if |data| == 64 then Some(MarkerData(data[..32], data[32..])) else None
  }

  lemma ReadMarkerBytes(orderUtxoHash: Bytes32, makerPubkey: Address)
    ensures ReadMarker(MarkerBytes(orderUtxoHash, makerPubkey)) == Some(MarkerData(orderUtxoHash, makerPubkey))
  {
    assert MarkerBytes(orderUtxoHash, makerPubkey)[..32] == orderUtxoHash;
    assert MarkerBytes(orderUtxoHash, makerPubkey)[32..] == makerPubkey;
  }

  function FindMessage(messages: seq<Message>, viewTag: seq<Byte>): Option<Message> {
    if messages == [] then None
    else if messages[0].viewTag == viewTag then Some(messages[0])
    else FindMessage(messages[1..], viewTag)
  }

  /** The first message under the tag, and none only when no message bears it. */
  lemma {:induction false} FindMessageExactly(messages: seq<Message>, viewTag: seq<Byte>) returns (k: nat)
    ensures FindMessage(messages, viewTag).None? <==> forall i :: 0 <= i < |messages| ==> messages[i].viewTag != viewTag
    ensures FindMessage(messages, viewTag).Some? ==>
              && k < |messages| && FindMessage(messages, viewTag) == Some(messages[k]) && messages[k].viewTag == viewTag
              && forall i :: 0 <= i < k ==> messages[i].viewTag != viewTag
  {
    k := 0;
    if messages != [] && messages[0].viewTag != viewTag {
      var later := FindMessageExactly(messages[1..], viewTag);
      k := later + 1;
      assert forall i :: 1 <= i < |messages| ==> messages[i] == messages[1..][i - 1];
    }
  }

  function FindSlot(slots: seq<Unified>, hash: Bytes32): (r: Option<Unified>)
    ensures r.Some? ==> r.value in slots && r.value.slot.hash == hash
    ensures r.None? ==> forall u :: u in slots ==> u.slot.hash != hash
  {
    if slots == [] then None
    else if slots[0].slot.hash == hash then Some(slots[0])
    else FindSlot(slots[1..], hash)
  }

  lemma {:induction false} FindSlotAt(slots: seq<Unified>, hash: Bytes32, k: nat)
    requires k < |slots| && slots[k].slot.hash == hash
    requires forall i :: 0 <= i < k ==> slots[i].slot.hash != hash
    ensures FindSlot(slots, hash) == Some(slots[k])
  {
    if k > 0 {
      FindSlotAt(slots[1..], hash, k - 1);
    }
  }

  function ToCandidate(p: Plaintext, marker: MarkerData, registry: Registry): Result<Candidate, SdkError> {
    match ParseOrderData(p.records)
    case None => Err(SdkError("order plaintext carries no utxo data record"))
    case Some(data) =>
      match (registry.ResolveMint(p.assetId), registry.ResolveMint(data.destinationAssetId))
      case (Some(source), Some(destination)) =>
        Ok(Candidate(p.amount, source, destination.asset, p.blinding, data, marker.makerPubkey, marker.orderUtxoHash))
      case _ => Err(SdkError("unknown asset id"))
  }

  function ScanTaker(codec: Codec, tx: ShieldedTx, keypair: Keypair,
                     registry: Registry): Result<Option<Candidate>, SdkError> {
    match keypair.viewTag
    case None => Err(SdkError("view tag"))
    case Some(viewTag) =>
      match FindMessage(tx.messages, viewTag)
      case None => Ok(None)
      case Some(message) =>
        match ReadMarker(message.data)
        case None => Err(SdkError("marker payload"))
        case Some(marker) =>
          match FindSlot(UnifiedSlots(codec, tx.slots), marker.orderUtxoHash)
          case None => Err(SdkError("marker without a unified order ciphertext in the same transaction"))
          case Some(found) =>
            match codec.decode(keypair.viewingKey, tx, found.index, found.body)
            case None => Err(SdkError("decode"))
            case Some(p) =>
              match ToCandidate(p, marker, registry)
              case Err(e) => Err(e)
              case Ok(candidate) => Ok(Some(candidate))
  }

  function Rebuilt(c: Candidate, destination: ShieldedAddress): OrderUtxo {
    OrderUtxo(OrderTerms(c.destinationMint, c.orderData.destinationAmount, destination, c.orderData.taker,
                         c.orderData.expiry, c.orderData.takeMode),
              c.blinding, c.sourceMint, c.sourceAmount, c.orderData.destinationAssetId)
  }

  function IntoOrder(c: Candidate, destination: ShieldedAddress,
                     takerViewing: seq<Byte>): Result<TakerOrder, SdkError> {
    var order := Rebuilt(c, destination);
    match OutputHash(order.ToOutputUtxo(takerViewing), INDEXED_TREE_ID)
    case Err(e) => Err(e)
    case Ok(hash) =>
      if Enc(hash) != c.orderUtxoHash then
        Err(SdkError("reconstructed order utxo hash does not match the committed leaf"))
      else Ok(TakerOrder(order, c.makerPubkey))
  }

  lemma {:induction false} FindSlotFrom(slots: seq<Unified>, hash: Bytes32) returns (k: nat)
    requires FindSlot(slots, hash).Some?
    ensures k < |slots| && FindSlot(slots, hash) == Some(slots[k]) && slots[k].slot.hash == hash
    ensures forall i :: 0 <= i < k ==> slots[i].slot.hash != hash
  {
    if slots[0].slot.hash == hash {
      k := 0;
    } else {
      k := FindSlotFrom(slots[1..], hash);
      k := k + 1;
      assert forall i :: 1 <= i < k ==> slots[i] == slots[1..][i - 1];
    }
  }

  /** Entry `k` is the first confidential slot with the leaf, and it decodes to the order's payload. */
  ghost predicate DecodesAt(codec: Codec, tx: ShieldedTx, viewingKey: Fe, k: nat, o: OrderUtxo) {
    var slots, hash := UnifiedSlots(codec, tx.slots), Enc(o.Leaf(0));
    && k < |slots| && slots[k].slot.hash == hash && (forall i :: 0 <= i < k ==> slots[i].slot.hash != hash)
    && var p := codec.decode(viewingKey, tx, slots[k].index, slots[k].body);
       p.Some? && Carries(p.value, o)
  }

  /** Soundness and completeness of the hash check: when the marked leaf is an order's, the candidate
      is accepted exactly when it rebuilds that order's opening, maker address included. */
  lemma IntoOrderIff(c: Candidate, destination: ShieldedAddress, takerViewing: seq<Byte>, o: OrderUtxo)
    requires c.orderUtxoHash == Enc(o.Leaf(INDEXED_TREE_ID))
    ensures IntoOrder(c, destination, takerViewing).Ok? <==> SameOpening(Rebuilt(c, destination), o)
    ensures IntoOrder(c, destination, takerViewing).Ok? ==>
              IntoOrder(c, destination, takerViewing) == Ok(TakerOrder(Rebuilt(c, destination), c.makerPubkey))
  {
    var order := Rebuilt(c, destination);
    RepresentationsAgree(order, takerViewing, INDEXED_TREE_ID, 0);
    LeafIffOpening(order, INDEXED_TREE_ID, o, INDEXED_TREE_ID);
    if Enc(order.Leaf(INDEXED_TREE_ID)) == c.orderUtxoHash {
      EncInjective(order.Leaf(INDEXED_TREE_ID), o.Leaf(INDEXED_TREE_ID));
    }
  }

  /** A scanned candidate's assets are the registered ones, and it marks a slot of the transaction. */
  lemma ScannedCandidate(codec: Codec, tx: ShieldedTx, keypair: Keypair, registry: Registry,
                         destination: ShieldedAddress)
    requires ScanTaker(codec, tx, keypair, registry).Ok? && ScanTaker(codec, tx, keypair, registry).value.Some?
    ensures var c := ScanTaker(codec, tx, keypair, registry).value.value;
            && registry.Registers(Rebuilt(c, destination))
            && exists u :: u in UnifiedSlots(codec, tx.slots) && u.slot.hash == c.orderUtxoHash
  {
  }

  /** Discovery soundness: whatever the transaction carries, an order returned for an order's leaf is
      that order -- up to the asset ids, and exactly under an injective registry. */
  lemma TakerOrderSound(codec: Codec, tx: ShieldedTx, keypair: Keypair, registry: Registry, c: Candidate,
                            destination: ShieldedAddress, takerViewing: seq<Byte>, o: OrderUtxo)
    requires ScanTaker(codec, tx, keypair, registry) == Ok(Some(c))
    requires c.orderUtxoHash == Enc(o.Leaf(INDEXED_TREE_ID)) && IntoOrder(c, destination, takerViewing).Ok?
    ensures var found := IntoOrder(c, destination, takerViewing).value.orderUtxo;
            && SameOpening(found, o)
            && (registry.Injective() && registry.Registers(o) ==> found == o)
  {
    IntoOrderIff(c, destination, takerViewing, o);
    ScannedCandidate(codec, tx, keypair, registry, destination);
    if registry.Injective() && registry.Registers(o) {
      OpeningFixesOrder(registry, Rebuilt(c, destination), o);
    }
  }

  /** Exactly which orders come out, under any ciphertext format: `o` with `makerPubkey`, for a maker whose
      address is that of `o`, if and only if both assets are listed, the first message under the taker's
      tag holds `o`'s leaf and that key, and the first confidential slot of that leaf decodes to `o`. */
  lemma TakerOrderIff(codec: Codec, tx: ShieldedTx, keypair: Keypair, registry: Registry, o: OrderUtxo,
                      makerPubkey: Address, takerViewing: seq<Byte>)
    ensures var scanned := ScanTaker(codec, tx, keypair, registry);
            scanned.Ok? && scanned.value.Some?
            && IntoOrder(scanned.value.value, o.terms.destination, takerViewing) == Ok(TakerOrder(o, makerPubkey))
            <==> && keypair.viewTag.Some? && registry.Registers(o)
                 && BearsMarker(tx.messages, keypair.viewTag.value, Enc(o.Leaf(0)), makerPubkey)
                 && exists k :: DecodesAt(codec, tx, keypair.viewingKey, k, o)
  {
    var scanned := ScanTaker(codec, tx, keypair, registry);
    if && scanned.Ok? && scanned.value.Some?
       && IntoOrder(scanned.value.value, o.terms.destination, takerViewing) == Ok(TakerOrder(o, makerPubkey)) {
      TakerOrderShows(codec, tx, keypair, registry, o, makerPubkey, takerViewing);
    }
    if && keypair.viewTag.Some? && registry.Registers(o)
       && BearsMarker(tx.messages, keypair.viewTag.value, Enc(o.Leaf(0)), makerPubkey)
       && exists k :: DecodesAt(codec, tx, keypair.viewingKey, k, o) {
      var k :| DecodesAt(codec, tx, keypair.viewingKey, k, o);
      DecodedIsScanned(codec, tx, keypair, registry, k, o, makerPubkey, takerViewing);
    }
  }

  lemma TakerOrderShows(codec: Codec, tx: ShieldedTx, keypair: Keypair, registry: Registry, o: OrderUtxo,
                        makerPubkey: Address, takerViewing: seq<Byte>)
    requires var scanned := ScanTaker(codec, tx, keypair, registry);
             scanned.Ok? && scanned.value.Some?
             && IntoOrder(scanned.value.value, o.terms.destination, takerViewing) == Ok(TakerOrder(o, makerPubkey))
    ensures keypair.viewTag.Some? && registry.Registers(o)
    ensures BearsMarker(tx.messages, keypair.viewTag.value, Enc(o.Leaf(0)), makerPubkey)
    ensures exists k :: DecodesAt(codec, tx, keypair.viewingKey, k, o)
  {
    var c := ScanTaker(codec, tx, keypair, registry).value.value;
    assert Rebuilt(c, o.terms.destination) == o;
    RepresentationsAgree(o, takerViewing, 0, 0);
    var m := CandidateIsMarked(codec, tx, keypair, registry, c);
    var k := CandidateIsDecoded(codec, tx, keypair, registry, c);
    assert DecodesAt(codec, tx, keypair.viewingKey, k, o);
  }

  /** A candidate is marked by the first message under the tag. */
  lemma CandidateIsMarked(codec: Codec, tx: ShieldedTx, keypair: Keypair, registry: Registry, c: Candidate)
    returns (m: nat)
    requires ScanTaker(codec, tx, keypair, registry) == Ok(Some(c))
    ensures keypair.viewTag.Some? && m < |tx.messages|
    ensures tx.messages[m] == Message(keypair.viewTag.value, c.orderUtxoHash + c.makerPubkey)
    ensures forall i :: 0 <= i < m ==> tx.messages[i].viewTag != keypair.viewTag.value
  {
    m := FindMessageExactly(tx.messages, keypair.viewTag.value);
  }

  /** A candidate is what the first confidential slot of its leaf decodes to, with both assets listed. */
  lemma CandidateIsDecoded(codec: Codec, tx: ShieldedTx, keypair: Keypair, registry: Registry, c: Candidate)
    returns (k: nat)
    requires ScanTaker(codec, tx, keypair, registry) == Ok(Some(c))
    ensures var slots := UnifiedSlots(codec, tx.slots);
            && k < |slots| && slots[k].slot.hash == c.orderUtxoHash
            && (forall i :: 0 <= i < k ==> slots[i].slot.hash != c.orderUtxoHash)
            && var p := codec.decode(keypair.viewingKey, tx, slots[k].index, slots[k].body);
               p.Some? && p.value.assetId == c.sourceMint.id && p.value.amount == c.sourceAmount
               && p.value.blinding == c.blinding && ParseOrderData(p.value.records) == Some(c.orderData)
    ensures registry.Listed(c.sourceMint)
    ensures registry.Listed(Mint(c.destinationMint, c.orderData.destinationAssetId))
  {
    k := FindSlotFrom(UnifiedSlots(codec, tx.slots), c.orderUtxoHash);
  }

  lemma DecodedIsScanned(codec: Codec, tx: ShieldedTx, keypair: Keypair, registry: Registry, k: nat, o: OrderUtxo,
                         makerPubkey: Address, takerViewing: seq<Byte>)
    requires keypair.viewTag.Some? && registry.Registers(o) && DecodesAt(codec, tx, keypair.viewingKey, k, o)
    requires BearsMarker(tx.messages, keypair.viewTag.value, Enc(o.Leaf(0)), makerPubkey)
    ensures var scanned := ScanTaker(codec, tx, keypair, registry);
            && scanned.Ok? && scanned.value.Some?
            && IntoOrder(scanned.value.value, o.terms.destination, takerViewing) == Ok(TakerOrder(o, makerPubkey))
  {
    var m := FindMessageExactly(tx.messages, keypair.viewTag.value);
    ReadMarkerBytes(Enc(o.Leaf(0)), makerPubkey);
    FindSlotAt(UnifiedSlots(codec, tx.slots), Enc(o.Leaf(0)), k);
    var c := ScanTaker(codec, tx, keypair, registry).value.value;
    assert Rebuilt(c, o.terms.destination) == o;
    RepresentationsAgree(o, takerViewing, 0, 0);
  }

  /** The order's slot in the transaction: the first slot with its leaf, decoding for the taker. */
  predicate HoldsForTaker(codec: Codec, tx: ShieldedTx, keypair: Keypair, before: seq<Slot>, slot: Slot,
                          after: seq<Slot>, o: OrderUtxo) {
    && tx.slots == before + [slot] + after
    && slot.hash == Enc(o.Leaf(INDEXED_TREE_ID)) && IsUnified(codec, slot)
    && (forall i :: 0 <= i < |before| ==> before[i].hash != slot.hash)
    && var p := codec.decode(keypair.viewingKey, tx, DataBearing(before), slot.data.value.blob[1..]);
       p.Some? && Carries(p.value, o)
  }

  lemma {:induction false} UnifiedHashes(codec: Codec, slots: seq<Slot>, hash: Bytes32)
    requires forall i :: 0 <= i < |slots| ==> slots[i].hash != hash
    ensures forall k :: 0 <= k < |UnifiedSlots(codec, slots)| ==> UnifiedSlots(codec, slots)[k].slot.hash != hash
  {
    if slots != [] {
      UnifiedHashes(codec, slots[..|slots| - 1], hash);
    }
  }

  lemma OrderSlotFound(codec: Codec, before: seq<Slot>, slot: Slot, after: seq<Slot>)
    requires IsUnified(codec, slot) && forall i :: 0 <= i < |before| ==> before[i].hash != slot.hash
    ensures FindSlot(UnifiedSlots(codec, before + [slot] + after), slot.hash)
            == Some(ToUnified(codec, DataBearing(before), slot))
  {
    var found := UnifiedSlots(codec, before + [slot] + after);
    UnifiedAt(codec, before, slot, after);
    UnifiedHashes(codec, before, slot.hash);
    var k := |UnifiedSlots(codec, before)|;
    assert forall i :: 0 <= i < k ==> found[i] == found[..k][i];
    FindSlotAt(found, slot.hash, k);
  }

  /** The first message under the tag holds the 64 bytes of the marker: the leaf, then the maker's key. */
  predicate BearsMarker(messages: seq<Message>, viewTag: seq<Byte>, orderUtxoHash: Bytes32, makerPubkey: Address) {
    exists m :: 0 <= m < |messages| && messages[m] == Message(viewTag, orderUtxoHash + makerPubkey)
                && forall i :: 0 <= i < m ==> messages[i].viewTag != viewTag
  }

  /** Discovery round trip: from a make transaction that holds the order's ciphertext at its slot
      index, among any other slots, and a marker for the taker, the taker gets the order back. */
  lemma TakerRoundTrip(codec: Codec, tx: ShieldedTx, keypair: Keypair, registry: Registry, before: seq<Slot>,
                       slot: Slot, after: seq<Slot>, o: OrderUtxo, makerPubkey: Address, takerViewing: seq<Byte>)
    requires keypair.viewTag.Some? && HoldsForTaker(codec, tx, keypair, before, slot, after, o) && registry.Registers(o)
    requires BearsMarker(tx.messages, keypair.viewTag.value, slot.hash, makerPubkey)
    ensures var scanned := ScanTaker(codec, tx, keypair, registry);
            && scanned.Ok? && scanned.value.Some? && scanned.value.value.makerPubkey == makerPubkey
            && scanned.value.value.orderUtxoHash == slot.hash && Rebuilt(scanned.value.value, o.terms.destination) == o
            && IntoOrder(scanned.value.value, o.terms.destination, takerViewing) == Ok(TakerOrder(o, makerPubkey))
  {
    var k := FindMessageExactly(tx.messages, keypair.viewTag.value);
    ReadMarkerBytes(slot.hash, makerPubkey);
    OrderSlotFound(codec, before, slot, after);
    var c := ScanTaker(codec, tx, keypair, registry).value.value;
    assert Rebuilt(c, o.terms.destination) == o;
    IntoOrderIff(c, o.terms.destination, takerViewing, o);
  }

  /** The same from how make builds the transaction: what is sealed for the taker's key, under any
      ciphertext format that opens what it seals, comes back as the order. */
  lemma SealedRoundTrip(codec: Codec, tx: ShieldedTx, txKey: Fe, salt: seq<Byte>, keypair: Keypair, registry: Registry,
                        before: seq<Slot>, slot: Slot, after: seq<Slot>, p: Plaintext, o: OrderUtxo,
                        makerPubkey: Address, takerViewing: seq<Byte>)
    requires codec.Lawful() && registry.Registers(o) && keypair.viewTag.Some?
    requires SealsOrder(codec, tx, txKey, salt, codec.publicKey(keypair.viewingKey), before, slot, after, p, o)
    requires forall i :: 0 <= i < |before| ==> before[i].hash != slot.hash
    requires BearsMarker(tx.messages, keypair.viewTag.value, slot.hash, makerPubkey)
    ensures var scanned := ScanTaker(codec, tx, keypair, registry);
            && scanned.Ok? && scanned.value.Some? && scanned.value.value.makerPubkey == makerPubkey
            && scanned.value.value.orderUtxoHash == slot.hash && Rebuilt(scanned.value.value, o.terms.destination) == o
            && IntoOrder(scanned.value.value, o.terms.destination, takerViewing) == Ok(TakerOrder(o, makerPubkey))
  {
    assert codec.decode(keypair.viewingKey, tx, DataBearing(before), slot.data.value.blob[1..]) == Some(p);
    TakerRoundTrip(codec, tx, keypair, registry, before, slot, after, o, makerPubkey, takerViewing);
  }
}

/** The maker's side of order discovery. */
module MakerDiscovery {
  import opened Ideal
  import opened Notes
  import opened Order
  import opened Scan

  datatype Keypair = Keypair(viewingKey: Fe, address: Option<ShieldedAddress>)

  datatype MakerOrder = MakerOrder(orderUtxo: OrderUtxo, takerViewing: seq<Byte>)

  /** The viewing key of the transaction, if one of its nullifiers shows the maker wrote it. */
  function FindTxKey(codec: Codec, keypair: Keypair, txViewingPk: seq<Byte>, nullifiers: seq<Bytes32>): Option<Fe> {
    if nullifiers == [] then None
    else
      var key := codec.transactionViewingKey(keypair.viewingKey, nullifiers[0]);
      if key.Some? && codec.publicKey(key.value) == txViewingPk then key
      else FindTxKey(codec, keypair, txViewingPk, nullifiers[1..])
  }

  /** The derived key counts when it is the transaction's own. */
  predicate DerivesTxKey(codec: Codec, keypair: Keypair, txViewingPk: seq<Byte>, nullifier: Bytes32, txKey: Fe) {
    codec.transactionViewingKey(keypair.viewingKey, nullifier) == Some(txKey) && codec.publicKey(txKey) == txViewingPk
  }

  /** The key of the first nullifier that derives one. */
  predicate AuthoredAt(codec: Codec, keypair: Keypair, txViewingPk: seq<Byte>, nullifiers: seq<Bytes32>, k: nat,
                       txKey: Fe) {
    && k < |nullifiers| && DerivesTxKey(codec, keypair, txViewingPk, nullifiers[k], txKey)
    && forall i :: 0 <= i < k ==>
         var key := codec.transactionViewingKey(keypair.viewingKey, nullifiers[i]);
         key.Some? ==> codec.publicKey(key.value) != txViewingPk
  }

  lemma {:induction false} FindTxKeyAt(codec: Codec, keypair: Keypair, txViewingPk: seq<Byte>, nullifiers: seq<Bytes32>,
                                       k: nat, txKey: Fe)
    requires AuthoredAt(codec, keypair, txViewingPk, nullifiers, k, txKey)
    ensures FindTxKey(codec, keypair, txViewingPk, nullifiers) == Some(txKey)
  {
    if k > 0 {
      assert forall i :: 0 <= i < k - 1 ==> nullifiers[1..][i] == nullifiers[i + 1];
      FindTxKeyAt(codec, keypair, txViewingPk, nullifiers[1..], k - 1, txKey);
    }
  }

  /** A key that is found is derived from some nullifier; none is found only if no nullifier derives it. */
  lemma {:induction false} FindTxKeySound(codec: Codec, keypair: Keypair, txViewingPk: seq<Byte>,
                                          nullifiers: seq<Bytes32>) returns (k: nat)
    ensures var key := FindTxKey(codec, keypair, txViewingPk, nullifiers);
            && (key.Some? ==> AuthoredAt(codec, keypair, txViewingPk, nullifiers, k, key.value))
            && (key.None? ==> forall i, txKey ::
                  0 <= i < |nullifiers| ==> !DerivesTxKey(codec, keypair, txViewingPk, nullifiers[i], txKey))
  {
    k := 0;
    if nullifiers != [] {
      var first := codec.transactionViewingKey(keypair.viewingKey, nullifiers[0]);
      if first.None? || codec.publicKey(first.value) != txViewingPk {
        var later := FindTxKeySound(codec, keypair, txViewingPk, nullifiers[1..]);
        k := later + 1;
        assert forall i :: 1 <= i < |nullifiers| ==> nullifiers[i] == nullifiers[1..][i - 1];
      }
    }
  }

  function MakerOrderCandidate(registry: Registry, maker: ShieldedAddress, p: Plaintext,
                               takerViewing: seq<Byte>): Option<MakerOrder> {
    match ParseOrderData(p.records)
    case None => None
    case Some(data) =>
      match (registry.ResolveMint(p.assetId), registry.ResolveMint(data.destinationAssetId))
      case (Some(source), Some(destination)) =>
        Some(MakerOrder(OrderUtxo(OrderTerms(destination.asset, data.destinationAmount, maker, data.taker, data.expiry,
                                             data.takeMode),
                                  p.blinding, source, p.amount, data.destinationAssetId),
                        takerViewing))
      case _ => None
  }

  function FirstSome<T>(s: seq<Option<T>>): Option<T> {
    if s == [] then None
    else if s[0].Some? then s[0]
    else FirstSome(s[1..])
  }

  lemma {:induction false} FirstSomeAt<T>(s: seq<Option<T>>, k: nat)
    requires k < |s| && s[k].Some? && forall i :: 0 <= i < k ==> s[i].None?
    ensures FirstSome(s) == s[k]
  {
    if k > 0 {
      FirstSomeAt(s[1..], k - 1);
    }
  }

  lemma {:induction false} FirstSomeFrom<T>(s: seq<Option<T>>) returns (k: nat)
    requires FirstSome(s).Some?
    ensures k < |s| && FirstSome(s) == s[k] && forall i :: 0 <= i < k ==> s[i].None?
  {
    if s[0].Some? {
      k := 0;
    } else {
      k := FirstSomeFrom(s[1..]);
      k := k + 1;
    }
  }

  // What the maker reads slots with, once it has the transaction's key.
  datatype Reader = Reader(codec: Codec, registry: Registry, maker: ShieldedAddress, txKey: Fe, salt: seq<Byte>)
  {
    /** The order a slot yields the maker: decryptable, well formed, and matching the slot's leaf. */
    function OrderInSlot(u: Unified): Option<MakerOrder> {
      match (codec.embeddedViewingPk(u.body), codec.decryptWithTxKey(txKey, u.body, salt, u.index))
      case (Some(takerViewing), Some(p)) =>
        (match MakerOrderCandidate(registry, maker, p, takerViewing)
         case None => None
         case Some(order) =>
           match OutputHash(order.orderUtxo.ToOutputUtxo(takerViewing), INDEXED_TREE_ID)
           case Err(_) => None
           case Ok(hash) => if Enc(hash) == u.slot.hash then Some(order) else None)
      case _ => None
    }

    /** What each slot yields. */
    function Orders(slots: seq<Unified>): (orders: seq<Option<MakerOrder>>)
      ensures |orders| == |slots|
    {
      seq(|slots|, i requires 0 <= i < |slots| => OrderInSlot(slots[i]))
    }

    function FirstOrder(slots: seq<Unified>): Option<MakerOrder> {
      FirstSome(Orders(slots))
    }

    /** A slot the maker cannot decrypt, or whose plaintext has no order payload. */
    predicate NoOrderData(u: Unified) {
      var p := codec.decryptWithTxKey(txKey, u.body, salt, u.index);
      p.Some? ==> ParseOrderData(p.value.records).None?
    }
  }

  function Scanned(codec: Codec, tx: ShieldedTx, keypair: Keypair,
                   registry: Registry): Result<Option<MakerOrder>, SdkError> {
    if tx.txViewingPk.None? || tx.salt.None? then Ok(None)
    else
      match FindTxKey(codec, keypair, tx.txViewingPk.value, tx.nullifiers)
      case None => Ok(None)
      case Some(txKey) =>
        match keypair.address
        case None => Err(SdkError("shielded address"))
        case Some(maker) =>
          Ok(Reader(codec, registry, maker, txKey, tx.salt.value).FirstOrder(UnifiedSlots(codec, tx.slots)))
  }

  /** scan_maker: passes over the slots until one yields an order. */
  method ScanMaker(codec: Codec, tx: ShieldedTx, keypair: Keypair, registry: Registry)
    returns (r: Result<Option<MakerOrder>, SdkError>)
    ensures r == Scanned(codec, tx, keypair, registry)
  {
    if tx.txViewingPk.None? || tx.salt.None? {
      return Ok(None);
    }
    var txKey := FindTxKey(codec, keypair, tx.txViewingPk.value, tx.nullifiers);
    if txKey.None? {
      return Ok(None);
    }
    if keypair.address.None? {
      return Err(SdkError("shielded address"));
    }
    var maker, salt := keypair.address.value, tx.salt.value;
    var slots := CollectUnifiedSlots(codec, tx);
    ghost var reader := Reader(codec, registry, maker, txKey.value, salt);
    for i := 0 to |slots|
      invariant FirstSome(reader.Orders(slots)) == FirstSome(reader.Orders(slots)[i..])
    {
      var takerViewing := codec.embeddedViewingPk(slots[i].body);
      if takerViewing.None? {
        continue;
      }
      var plaintext := codec.decryptWithTxKey(txKey.value, slots[i].body, salt, slots[i].index);
      if plaintext.None? {
        continue;
      }
      var order := MakerOrderCandidate(registry, maker, plaintext.value, takerViewing.value);
      if order.None? {
        continue;
      }
      var hash := OutputHash(order.value.orderUtxo.ToOutputUtxo(takerViewing.value), INDEXED_TREE_ID);
      if hash.Err? {
        continue;
      }
      if Enc(hash.value) != slots[i].slot.hash {
        continue;
      }
      return Ok(order);
    }
    r := Ok(None);
  }

  /** A slot of an order's leaf yields that order or nothing. */
  lemma OrderInSlotSound(reader: Reader, u: Unified, o: OrderUtxo)
    requires u.slot.hash == Enc(o.Leaf(INDEXED_TREE_ID)) && reader.OrderInSlot(u).Some?
    ensures var found := reader.OrderInSlot(u).value.orderUtxo;
            SameOpening(found, o) && found.terms.destination == reader.maker && reader.registry.Registers(found)
  {
    var found := reader.OrderInSlot(u).value;
    RepresentationsAgree(found.orderUtxo, found.takerViewing, INDEXED_TREE_ID, 0);
    LeafIffOpening(found.orderUtxo, INDEXED_TREE_ID, o, INDEXED_TREE_ID);
    EncInjective(found.orderUtxo.Leaf(INDEXED_TREE_ID), o.Leaf(INDEXED_TREE_ID));
  }

  /** Exactly which order a slot yields, under any ciphertext format: the one of the slot's leaf that belongs
      to the maker, has listed assets, and is the payload the body opens to. */
  lemma OrderInSlotIff(reader: Reader, u: Unified, o: OrderUtxo, takerViewing: seq<Byte>)
    ensures reader.OrderInSlot(u) == Some(MakerOrder(o, takerViewing))
            <==> && reader.codec.embeddedViewingPk(u.body) == Some(takerViewing)
                 && u.slot.hash == Enc(o.Leaf(0)) && o.terms.destination == reader.maker
                 && reader.registry.Registers(o)
                 && var p := reader.codec.decryptWithTxKey(reader.txKey, u.body, reader.salt, u.index);
                    p.Some? && Carries(p.value, o)
  {
    RepresentationsAgree(o, takerViewing, 0, 0);
  }

  /** The maker's scan fails exactly when it wrote the transaction but has no address of its own. */
  lemma MakerScanFailsIff(codec: Codec, tx: ShieldedTx, keypair: Keypair, registry: Registry)
    ensures Scanned(codec, tx, keypair, registry).Err?
            <==> && keypair.address.None? && tx.salt.Some? && tx.txViewingPk.Some?
                 && exists k, txKey :: AuthoredAt(codec, keypair, tx.txViewingPk.value, tx.nullifiers, k, txKey)
  {
    if tx.txViewingPk.Some? {
      var j := FindTxKeySound(codec, keypair, tx.txViewingPk.value, tx.nullifiers);
      if k, txKey :| AuthoredAt(codec, keypair, tx.txViewingPk.value, tx.nullifiers, k, txKey) {
        FindTxKeyAt(codec, keypair, tx.txViewingPk.value, tx.nullifiers, k, txKey);
      }
    }
  }

  /** Discovery soundness: the order returned sits on a leaf of the transaction, and if that leaf is
      an order's it is that order, owned by the scanning maker. */
  lemma MakerOrderSound(codec: Codec, tx: ShieldedTx, keypair: Keypair, registry: Registry, found: MakerOrder)
    returns (u: Unified)
    requires Scanned(codec, tx, keypair, registry) == Ok(Some(found))
    ensures u in UnifiedSlots(codec, tx.slots) && u.slot.hash == Enc(found.orderUtxo.Leaf(INDEXED_TREE_ID))
    ensures Some(found.orderUtxo.terms.destination) == keypair.address
    ensures forall o: OrderUtxo :: u.slot.hash == Enc(o.Leaf(INDEXED_TREE_ID)) ==>
              && SameOpening(found.orderUtxo, o)
              && (registry.Injective() && registry.Registers(o) ==> found.orderUtxo == o)
  {
    var slots := UnifiedSlots(codec, tx.slots);
    var txKey := FindTxKey(codec, keypair, tx.txViewingPk.value, tx.nullifiers).value;
    var reader := Reader(codec, registry, keypair.address.value, txKey, tx.salt.value);
    var k := FirstSomeFrom(reader.Orders(slots));
    u := slots[k];
    RepresentationsAgree(found.orderUtxo, found.takerViewing, INDEXED_TREE_ID, 0);
    forall o: OrderUtxo | u.slot.hash == Enc(o.Leaf(INDEXED_TREE_ID))
      ensures SameOpening(found.orderUtxo, o)
      ensures registry.Injective() && registry.Registers(o) ==> found.orderUtxo == o
    {
      OrderInSlotSound(reader, u, o);
      if registry.Injective() && registry.Registers(o) {
        OpeningFixesOrder(registry, found.orderUtxo, o);
      }
    }
  }

  /** The order's slot in the transaction, sealed by the maker for the taker's viewing key. */
  predicate HoldsForMaker(reader: Reader, tx: ShieldedTx, takerViewing: seq<Byte>,
                          before: seq<Slot>, slot: Slot, after: seq<Slot>, o: OrderUtxo) {
    var earlier := UnifiedSlots(reader.codec, before);
    && tx.slots == before + [slot] + after
    && slot.hash == Enc(o.Leaf(INDEXED_TREE_ID)) && IsUnified(reader.codec, slot)
    && (forall i :: 0 <= i < |earlier| ==> reader.NoOrderData(earlier[i]))
    && var body := slot.data.value.blob[1..];
       var p := reader.codec.decryptWithTxKey(reader.txKey, body, reader.salt, DataBearing(before));
       reader.codec.embeddedViewingPk(body) == Some(takerViewing) && p.Some? && Carries(p.value, o)
  }

  lemma NoDataNoOrder(reader: Reader, u: Unified)
    requires reader.NoOrderData(u)
    ensures reader.OrderInSlot(u).None?
  {
  }

  lemma OrderInItsSlot(reader: Reader, tx: ShieldedTx, takerViewing: seq<Byte>,
                       before: seq<Slot>, slot: Slot, after: seq<Slot>, o: OrderUtxo)
    requires HoldsForMaker(reader, tx, takerViewing, before, slot, after, o)
    requires reader.registry.Registers(o) && reader.maker == o.terms.destination
    ensures reader.OrderInSlot(ToUnified(reader.codec, DataBearing(before), slot)) == Some(MakerOrder(o, takerViewing))
  {
    var u := ToUnified(reader.codec, DataBearing(before), slot);
    var p := reader.codec.decryptWithTxKey(reader.txKey, u.body, reader.salt, u.index).value;
    assert MakerOrderCandidate(reader.registry, reader.maker, p, takerViewing) == Some(MakerOrder(o, takerViewing));
    RepresentationsAgree(o, takerViewing, INDEXED_TREE_ID, 0);
  }

  /** Discovery round trip: from a transaction it wrote, the maker gets its order back, whatever
      slots without order data surround it. */
  lemma MakerRoundTrip(reader: Reader, tx: ShieldedTx, keypair: Keypair, takerViewing: seq<Byte>,
                       before: seq<Slot>, slot: Slot, after: seq<Slot>, o: OrderUtxo)
    requires tx.txViewingPk.Some? && tx.salt == Some(reader.salt)
    requires FindTxKey(reader.codec, keypair, tx.txViewingPk.value, tx.nullifiers) == Some(reader.txKey)
    requires keypair.address == Some(reader.maker) && reader.maker == o.terms.destination
    requires reader.registry.Registers(o)
    requires HoldsForMaker(reader, tx, takerViewing, before, slot, after, o)
    ensures Scanned(reader.codec, tx, keypair, reader.registry) == Ok(Some(MakerOrder(o, takerViewing)))
  {
    var slots := UnifiedSlots(reader.codec, tx.slots);
    var k := |UnifiedSlots(reader.codec, before)|;
    UnifiedAt(reader.codec, before, slot, after);
    OrderInItsSlot(reader, tx, takerViewing, before, slot, after, o);
    forall i | 0 <= i < k
      ensures reader.Orders(slots)[i].None?
    {
      assert slots[i] == slots[..k][i];
      NoDataNoOrder(reader, slots[i]);
    }
    FirstSomeAt(reader.Orders(slots), k);
  }

  /** The same from how make builds the transaction: its key is the one the maker derives from one of
      its nullifiers, at whatever position, and the payload is sealed under it. */
  lemma SealedRoundTrip(reader: Reader, tx: ShieldedTx, keypair: Keypair, takerViewing: seq<Byte>, k: nat,
                        before: seq<Slot>, slot: Slot, after: seq<Slot>, p: Plaintext, o: OrderUtxo)
    requires reader.codec.Lawful() && reader.registry.Registers(o)
    requires keypair.address == Some(reader.maker) && reader.maker == o.terms.destination
    requires AuthoredAt(reader.codec, keypair, reader.codec.publicKey(reader.txKey), tx.nullifiers, k, reader.txKey)
    requires SealsOrder(reader.codec, tx, reader.txKey, reader.salt, takerViewing, before, slot, after, p, o)
    requires var earlier := UnifiedSlots(reader.codec, before);
             forall i :: 0 <= i < |earlier| ==> reader.NoOrderData(earlier[i])
    ensures Scanned(reader.codec, tx, keypair, reader.registry) == Ok(Some(MakerOrder(o, takerViewing)))
  {
    FindTxKeyAt(reader.codec, keypair, reader.codec.publicKey(reader.txKey), tx.nullifiers, k, reader.txKey);
    MakerRoundTrip(reader, tx, keypair, takerViewing, before, slot, after, o);
  }
}
