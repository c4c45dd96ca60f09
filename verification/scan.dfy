/** Indexed transactions and the slots that may carry an order ciphertext. */
module Scan {
  import opened Ideal
  import opened Notes
  import opened Pool
  import opened Order

  const INDEXED_TREE_ID: u16 := 0

  datatype Record = UtxoData(bytes: seq<Byte>) | OtherRecord(bytes: seq<Byte>)

  // ConfidentialOutputPlaintext.
  datatype Plaintext = Plaintext(assetId: u64, amount: u64, blinding: Fe, records: seq<Record>)

  datatype OutputData = Encrypted(blob: seq<Byte>) | OtherEncoding(payload: seq<Byte>)

  // OutputSlot: a slot whose payload parses carries data.
  datatype Slot = Slot(hash: Bytes32, data: Option<OutputData>)

  datatype ShieldedTx = ShieldedTx(
    txViewingPk: Option<seq<Byte>>, salt: Option<seq<Byte>>, slots: seq<Slot>, messages: seq<Message>,
    nullifiers: seq<Bytes32>)

  // The ciphertext format and key derivations, which the repository only calls.
  datatype Codec = Codec(
    isConfidential: Byte -> bool,
    decode: (Fe, ShieldedTx, nat, seq<Byte>) -> Option<Plaintext>,
    embeddedViewingPk: seq<Byte> -> Option<seq<Byte>>,
    decryptWithTxKey: (Fe, seq<Byte>, seq<Byte>, nat) -> Option<Plaintext>,
    transactionViewingKey: (Fe, Bytes32) -> Option<Fe>,
    publicKey: Fe -> seq<Byte>,
    seal: (seq<Byte>, Fe, seq<Byte>, nat, Plaintext) -> seq<Byte>)
  {
    /** Both ends open what is sealed: the sender with the transaction's key, the recipient with its
        own, at the slot index it was sealed for. The recipient's key is embedded in the body. */
    ghost predicate Lawful() {
      && (forall recipient: seq<Byte>, txKey: Fe, salt: seq<Byte>, index: nat, p: Plaintext ::
            && embeddedViewingPk(seal(recipient, txKey, salt, index, p)) == Some(recipient)
            && decryptWithTxKey(txKey, seal(recipient, txKey, salt, index, p), salt, index) == Some(p))
      && (forall viewingKey: Fe, txKey: Fe, tx: ShieldedTx, index: nat, p: Plaintext, salt: seq<Byte> ::
            (tx.salt == Some(salt) && tx.txViewingPk == Some(publicKey(txKey))) ==>
              decode(viewingKey, tx, index, seal(publicKey(viewingKey), txKey, salt, index, p)) == Some(p))
    }
  }

  /* A lawful format exists. */

  /** A plaintext as one field element, and back. */
  function RecordFe(r: Record): Fe {
    match r
    case UtxoData(bytes) => BytesHash(bytes)
    case OtherRecord(bytes) => SolanaIdentity(bytes)
  }

  function RecordFes(records: seq<Record>): (fs: seq<Fe>)
    ensures |fs| == |records|
  {
    seq(|records|, i requires 0 <= i < |records| => RecordFe(records[i]))
  }

  function PlaintextFe(p: Plaintext): Fe {
    Poseidon([Num(p.assetId), Num(p.amount), p.blinding, Poseidon(RecordFes(p.records))])
  }

  function RecordOf(f: Fe): Record {
    match f
    case BytesHash(bytes) => UtxoData(bytes)
    case SolanaIdentity(bytes) => OtherRecord(bytes)
    case _ => OtherRecord([])
  }

  function PlaintextOf(f: Fe): Option<Plaintext> {
    if f.Poseidon? && |f.args| == 4 && IsU64(f.args[0]) && IsU64(f.args[1]) && f.args[3].Poseidon? then
      var records := f.args[3].args;
      Some(Plaintext(f.args[0].n, f.args[1].n, f.args[2],
                     seq(|records|, i requires 0 <= i < |records| => RecordOf(records[i]))))
    else None
  }

  lemma PlaintextOfFe(p: Plaintext)
    ensures PlaintextOf(PlaintextFe(p)) == Some(p)
  {
    var records := RecordFes(p.records);
    assert seq(|records|, i requires 0 <= i < |records| => RecordOf(records[i])) == p.records;
  }

  /** A body that names its recipient and holds its plaintext, each as one byte of a term's encoding. */
  function ShownBody(recipient: seq<Byte>, p: Plaintext): seq<Byte> {
    [Byte(Digit(BytesHash(recipient), 0), {}), Byte(Digit(PlaintextFe(p), 0), {})]
  }

  function ShownRecipient(body: seq<Byte>): Option<seq<Byte>> {
    if |body| == 2 && body[0].base.Digit? && body[0].base.fe.BytesHash? then Some(body[0].base.fe.bytes) else None
  }

  function ShownPlaintext(body: seq<Byte>): Option<Plaintext> {
    if |body| == 2 && body[1].base.Digit? then PlaintextOf(body[1].base.fe) else None
  }

  /** The law asks no more than a format can keep: one that hides nothing keeps it. */
  lemma LawfulFormatExists() returns (codec: Codec)
    ensures codec.Lawful()
  {
    codec := Codec(_ => true, (_, _, _, body) => ShownPlaintext(body), body => ShownRecipient(body),
                   (_, body, _, _) => ShownPlaintext(body), (_, _) => None, _ => [],
                   (recipient, _, _, _, p) => ShownBody(recipient, p));
    forall recipient: seq<Byte>, p: Plaintext
      ensures ShownRecipient(ShownBody(recipient, p)) == Some(recipient)
      ensures ShownPlaintext(ShownBody(recipient, p)) == Some(p)
    {
      PlaintextOfFe(p);
    }
  }

  /* unified_slots */

  // A confidential slot with its decryption index and its ciphertext body.
  datatype Unified = Unified(index: nat, slot: Slot, body: seq<Byte>)

  /** How many of the slots carry data: the decryption index of the next one. */
  function DataBearing(slots: seq<Slot>): nat {
    if slots == [] then 0
    else DataBearing(slots[..|slots| - 1]) + if slots[|slots| - 1].data.Some? then 1 else 0
  }

  predicate IsUnified(codec: Codec, slot: Slot) {
    && slot.data.Some? && slot.data.value.Encrypted?
    && slot.data.value.blob != [] && codec.isConfidential(slot.data.value.blob[0])
  }

  function ToUnified(codec: Codec, index: nat, slot: Slot): Unified
    requires IsUnified(codec, slot)
  {
    Unified(index, slot, slot.data.value.blob[1..])
  }

  /** A confidential slot is an encrypted payload whose first byte names the confidential scheme; the
      rest of the payload is its body. */
  lemma UnifiedIff(codec: Codec, index: nat, slot: Slot, body: seq<Byte>)
    ensures IsUnified(codec, slot) && ToUnified(codec, index, slot).body == body
            <==> exists scheme: Byte :: codec.isConfidential(scheme) && slot.data == Some(Encrypted([scheme] + body))
    ensures IsUnified(codec, slot) ==>
              ToUnified(codec, index, slot).index == index && ToUnified(codec, index, slot).slot == slot
  {
    if IsUnified(codec, slot) && ToUnified(codec, index, slot).body == body {
      var blob := slot.data.value.blob;
      assert blob == [blob[0]] + body && codec.isConfidential(blob[0]);
    }
    if scheme: Byte :| codec.isConfidential(scheme) && slot.data == Some(Encrypted([scheme] + body)) {
      assert ([scheme] + body)[1..] == body;
    }
  }

  /** The decryption index of a slot is the number of positions before it whose slot carries data. */
  lemma {:induction false} DataBearingCounts(slots: seq<Slot>)
    ensures DataBearing(slots) == |set i | 0 <= i < |slots| && slots[i].data.Some?|
  {
    var bearing := set i | 0 <= i < |slots| && slots[i].data.Some?;
    if slots != [] {
      var last := |slots| - 1;
      var earlier := set i | 0 <= i < last && slots[..last][i].data.Some?;
      DataBearingCounts(slots[..last]);
      assert bearing == earlier + if slots[last].data.Some? then {last} else {};
    } else {
      assert bearing == {};
    }
  }

  function UnifiedSlots(codec: Codec, slots: seq<Slot>): seq<Unified> {
    if slots == [] then []
    else
      var before, last := slots[..|slots| - 1], slots[|slots| - 1];
      UnifiedSlots(codec, before) + if IsUnified(codec, last) then [ToUnified(codec, DataBearing(before), last)] else []
  }

  /** unified_slots: one pass with a running index. */
  method CollectUnifiedSlots(codec: Codec, tx: ShieldedTx) returns (found: seq<Unified>)
    ensures found == UnifiedSlots(codec, tx.slots)
  {
    found := [];
    var nextIndex := 0;
    for i := 0 to |tx.slots|
      invariant nextIndex == DataBearing(tx.slots[..i])
      invariant found == UnifiedSlots(codec, tx.slots[..i])
    {
      var slot := tx.slots[i];
      assert tx.slots[..i + 1][..i] == tx.slots[..i];
      if slot.data.Some? {
        var slotIndex := nextIndex;
        nextIndex := nextIndex + 1;
        if slot.data.value.Encrypted? {
          var blob := slot.data.value.blob;
          if blob != [] && codec.isConfidential(blob[0]) {
            blob := blob[1..];
            found := found + [Unified(slotIndex, slot, blob)];
          }
        }
      }
    }
    assert tx.slots[..|tx.slots|] == tx.slots;
  }

  lemma {:induction false} DataBearingMonotone(slots: seq<Slot>, i: nat, j: nat)
    requires i <= j <= |slots|
    ensures DataBearing(slots[..i]) <= DataBearing(slots[..j])
    ensures i < j && slots[i].data.Some? ==> DataBearing(slots[..i]) < DataBearing(slots[..j])
    decreases j
  {
    if i < j {
      DataBearingMonotone(slots, i, j - 1);
      assert slots[..j][..j - 1] == slots[..j - 1];
    }
  }

  /** Where entry `k` of the result stands among the slots. */
  predicate StandsAt(codec: Codec, slots: seq<Slot>, entry: Unified, p: nat) {
    && p < |slots| && IsUnified(codec, slots[p])
    && entry == ToUnified(codec, DataBearing(slots[..p]), slots[p])
  }

  /** `found` is exactly the confidential slots in order: its entries stand at strictly increasing
      positions, every confidential slot is one of them, and each carries as its index the number of
      data-bearing slots before it, confidential or not. */
  predicate Enumerates(codec: Codec, slots: seq<Slot>, found: seq<Unified>, positions: seq<nat>) {
    && |positions| == |found|
    && (forall k :: 0 <= k < |positions| ==> StandsAt(codec, slots, found[k], positions[k]))
    && (forall k, l :: 0 <= k < l < |positions| ==> positions[k] < positions[l])
    && (forall p :: 0 <= p < |slots| && IsUnified(codec, slots[p]) ==> p in positions)
  }

  lemma StandsAmongMore(codec: Codec, before: seq<Slot>, last: Slot, entry: Unified, p: nat)
    requires StandsAt(codec, before, entry, p)
    ensures StandsAt(codec, before + [last], entry, p)
  {
    assert (before + [last])[..p] == before[..p];
  }

  lemma EnumeratesSkipping(codec: Codec, before: seq<Slot>, last: Slot, found: seq<Unified>, positions: seq<nat>)
    requires Enumerates(codec, before, found, positions) && !IsUnified(codec, last)
    ensures Enumerates(codec, before + [last], found, positions)
  {
    forall k | 0 <= k < |positions|
      ensures StandsAt(codec, before + [last], found[k], positions[k])
    {
      StandsAmongMore(codec, before, last, found[k], positions[k]);
    }
  }

  lemma EnumeratesAdding(codec: Codec, before: seq<Slot>, last: Slot, found: seq<Unified>, positions: seq<nat>)
    requires Enumerates(codec, before, found, positions) && IsUnified(codec, last)
    ensures Enumerates(codec, before + [last], found + [ToUnified(codec, DataBearing(before), last)],
                       positions + [|before|])
  {
    var slots, more := before + [last], positions + [|before|];
    assert slots[..|before|] == before;
    forall k | 0 <= k < |positions|
      ensures StandsAt(codec, slots, found[k], positions[k])
    {
      StandsAmongMore(codec, before, last, found[k], positions[k]);
    }
    forall p | 0 <= p < |slots| && IsUnified(codec, slots[p])
      ensures p in more
    {
      assert p == |before| || p in positions;
      assert more[|positions|] == |before|;
    }
  }

  lemma {:induction false} UnifiedSlotsExactly(codec: Codec, slots: seq<Slot>) returns (positions: seq<nat>)
    ensures Enumerates(codec, slots, UnifiedSlots(codec, slots), positions)
  {
    positions := [];
    if slots != [] {
      var before, last := slots[..|slots| - 1], slots[|slots| - 1];
      positions := UnifiedSlotsExactly(codec, before);
      assert slots == before + [last];
      if IsUnified(codec, last) {
        EnumeratesAdding(codec, before, last, UnifiedSlots(codec, before), positions);
        positions := positions + [|before|];
      } else {
        EnumeratesSkipping(codec, before, last, UnifiedSlots(codec, before), positions);
        assert UnifiedSlots(codec, before) + [] == UnifiedSlots(codec, before);
      }
    }
  }

  /** The decryption indices are strictly increasing. */
  lemma UnifiedIndicesIncrease(codec: Codec, slots: seq<Slot>, k: nat, l: nat)
    requires k < l < |UnifiedSlots(codec, slots)|
    ensures UnifiedSlots(codec, slots)[k].index < UnifiedSlots(codec, slots)[l].index
  {
    var positions := UnifiedSlotsExactly(codec, slots);
    assert StandsAt(codec, slots, UnifiedSlots(codec, slots)[k], positions[k]);
    assert StandsAt(codec, slots, UnifiedSlots(codec, slots)[l], positions[l]);
    DataBearingMonotone(slots, positions[k], positions[l]);
  }

  /** Later slots never change what the earlier ones yield. */
  lemma {:induction false} UnifiedPrefix(codec: Codec, before: seq<Slot>, after: seq<Slot>)
    ensures UnifiedSlots(codec, before) <= UnifiedSlots(codec, before + after)
    decreases after
  {
    if after == [] {
      assert before + after == before;
    } else {
      var n := |after| - 1;
      UnifiedPrefix(codec, before, after[..n]);
      assert (before + after)[..|before| + n] == before + after[..n];
    }
  }

  /** Among any other slots a confidential slot is yielded right after those before it. */
  lemma UnifiedAt(codec: Codec, before: seq<Slot>, slot: Slot, after: seq<Slot>)
    requires IsUnified(codec, slot)
    ensures var found := UnifiedSlots(codec, before + [slot] + after);
            && |UnifiedSlots(codec, before)| < |found|
            && found[..|UnifiedSlots(codec, before)|] == UnifiedSlots(codec, before)
            && found[|UnifiedSlots(codec, before)|] == ToUnified(codec, DataBearing(before), slot)
  {
    assert (before + [slot])[..|before|] == before;
    UnifiedPrefix(codec, before + [slot], after);
  }

  /* parse_order_data, resolve_mint */

  /** The first utxo-data record is the order's payload. */
  function ParseOrderData(records: seq<Record>): Option<PlainTextData> {
    if records == [] then None
    else if records[0].UtxoData? then Deserialize(records[0].bytes)
    else ParseOrderData(records[1..])
  }

  /** The payload is that of the first utxo-data record; without such a record there is none. */
  lemma {:induction false} ParseOrderDataExactly(records: seq<Record>) returns (k: nat)
    ensures (forall i :: 0 <= i < |records| ==> records[i].OtherRecord?) ==> ParseOrderData(records).None?
    ensures (exists i :: 0 <= i < |records| && records[i].UtxoData?) ==>
              && k < |records| && records[k].UtxoData? && ParseOrderData(records) == Deserialize(records[k].bytes)
              && forall i :: 0 <= i < k ==> records[i].OtherRecord?
  {
    k := 0;
    if records != [] && records[0].OtherRecord? {
      var later := ParseOrderDataExactly(records[1..]);
      k := later + 1;
      assert forall i :: 1 <= i < |records| ==> records[i] == records[1..][i - 1];
    }
  }

  // The native mint, and the registered ones.
  datatype Registry = Registry(sol: Mint, mints: map<u64, Address>)
  {
    /** The native mint, or one registered under an id that is not the native one's. */
    predicate Listed(mint: Mint) {
      mint == sol || (mint.id != sol.id && mint.id in mints && mints[mint.id] == mint.asset)
    }

    /** Resolving an id finds the one listed mint of that id, if there is one. */
    function ResolveMint(id: u64): (r: Option<Mint>)
      ensures forall mint: Mint :: r == Some(mint) <==> Listed(mint) && mint.id == id
    {
      if id == sol.id then Some(sol)
      else if id in mints then Some(Mint(mints[id], id))
      else None
    }

    /** No asset is registered under two ids, or under one besides the native one. */
    ghost predicate Injective() {
      && (forall i: u64 :: i in mints && i != sol.id ==> mints[i] != sol.asset)
      && (forall i: u64, j: u64 ::
            i in mints && j in mints && i != sol.id && j != sol.id && mints[i] == mints[j] ==> i == j)
    }

    /** Both of an order's assets are listed under the ids it carries. */
    predicate Registers(o: OrderUtxo) {
      Listed(o.sourceMint) && Listed(Mint(o.terms.destinationMint, o.destinationAssetId))
    }
  }

  /** Under an injective registry an opening has one pair of asset ids. */
  lemma OpeningFixesOrder(registry: Registry, a: OrderUtxo, b: OrderUtxo)
    requires registry.Injective() && registry.Registers(a) && registry.Registers(b) && SameOpening(a, b)
    ensures a == b
  {
  }

  /* What make encrypts for the taker. */

  predicate Carries(p: Plaintext, o: OrderUtxo) {
    && p.assetId == o.sourceMint.id && p.amount == o.sourceAmount && p.blinding == o.blinding
    && ParseOrderData(p.records) == Some(ToPlaintext(o.terms, o.destinationAssetId))
  }

  /** A slot after `before` holds the order's payload, sealed for the recipient under the transaction's
      key and at the slot's own index. */
  predicate SealsPayload(codec: Codec, tx: ShieldedTx, txKey: Fe, salt: seq<Byte>, recipient: seq<Byte>,
                         before: seq<Slot>, slot: Slot, p: Plaintext, o: OrderUtxo) {
    && tx.salt == Some(salt) && tx.txViewingPk == Some(codec.publicKey(txKey))
    && IsUnified(codec, slot) && Carries(p, o)
    && slot.data.value.blob[1..] == codec.seal(recipient, txKey, salt, DataBearing(before), p)
  }

  /** A transaction as make builds it: among other slots, the order's leaf with its sealed payload. */
  predicate SealsOrder(codec: Codec, tx: ShieldedTx, txKey: Fe, salt: seq<Byte>, recipient: seq<Byte>,
                       before: seq<Slot>, slot: Slot, after: seq<Slot>, p: Plaintext, o: OrderUtxo) {
    && tx.slots == before + [slot] + after && slot.hash == Enc(o.Leaf(INDEXED_TREE_ID))
    && SealsPayload(codec, tx, txKey, salt, recipient, before, slot, p, o)
  }

  /** The SDK's output puts the serialized terms in the first utxo-data record. */
  lemma {:induction false} OutputCarriesOrder(o: OrderUtxo, takerViewing: seq<Byte>, others: seq<Record>,
                                              more: seq<Record>)
    requires forall i :: 0 <= i < |others| ==> others[i].OtherRecord?
    ensures var output := o.ToOutputUtxo(takerViewing);
            Carries(Plaintext(output.asset.id, output.amount, output.blinding,
                              others + [UtxoData(output.utxoData)] + more), o)
    decreases others
  {
    var record := UtxoData(o.ToOutputUtxo(takerViewing).utxoData);
    if others == [] {
      assert others + [record] + more == [record] + more;
      DeserializeSerialized(ToPlaintext(o.terms, o.destinationAssetId));
    } else {
      OutputCarriesOrder(o, takerViewing, others[1..], more);
      assert (others + [record] + more)[1..] == others[1..] + [record] + more;
    }
  }
}
