/** The SDK's order: its terms, the note it locks, and the payouts built from it. */
module Order {
  import opened Ideal
  import opened Notes
  import Circuit = OrderTermsCircuit

  datatype OrderTerms = OrderTerms(
    destinationMint: Address, destinationAmount: u64, destination: ShieldedAddress, taker: Address,
    expiry: u64, takeMode: u64)

  // OrderTermsProofInput: the form in which the terms are hashed by the SDK and enter the circuits.
  datatype TermsProofInput = TermsProofInput(
    destinationAsset: Fe, destinationAmount: u64, makerOwnerHash: Fe, makerViewingPk: seq<Byte>,
    expiry: u64, takerPkFe: Fe, takeMode: u64)
  {
    function Witness(): Circuit.OrderTerms {
      Circuit.OrderTerms(destinationAsset, Num(destinationAmount), makerOwnerHash, makerViewingPk,
                         Num(expiry), takerPkFe, Num(takeMode))
    }

    /** The SDK hashes byte strings; the circuit hashes field elements. They agree. */
    function DataHash(): (r: Option<Fe>)
      ensures r == Some(Witness().DataHash())
    {
      var makerAddress := Poseidon([makerOwnerHash, BytesHash(makerViewingPk)]);
      var inputs := [Enc(destinationAsset), U64RightAligned(destinationAmount), Enc(makerAddress),
                     U64RightAligned(expiry), Enc(takerPkFe), U64RightAligned(takeMode)];
      HashvOfEncodings(Witness().DataHash().args, inputs);
      Hashv(inputs)
    }
  }

  /** The terms as a proof input; the taker enters as the tagged Solana identity. */
  function ToProofInput(terms: OrderTerms): TermsProofInput {
    TermsProofInput(AssetField(terms.destinationMint), terms.destinationAmount, terms.destination.OwnerHash(),
                    terms.destination.viewing, terms.expiry, SolanaIdentity(terms.taker), terms.takeMode)
  }

  lemma WitnessInjective(a: OrderTerms, b: OrderTerms)
    requires ToProofInput(a).Witness() == ToProofInput(b).Witness()
    ensures a == b
  {
    OwnerHashInjective(a.destination, b.destination);
  }

  /* The note payload the taker decrypts. */

  datatype PlainTextData = PlainTextData(
    destinationAssetId: u64, destinationAmount: u64, expiry: u64, taker: Address, takeMode: u64)

  function Reversed<T>(s: seq<T>): (r: seq<T>)
    ensures |r| == |s|
    ensures forall i :: 0 <= i < |s| ==> r[i] == s[|s| - 1 - i]
  {
    seq(|s|, i requires 0 <= i < |s| => s[|s| - 1 - i])
  }

  function LeBytes(v: u64): (b: seq<Byte>)
    ensures |b| == 8
  {
    Reversed(U64Bytes(v))
  }

  function ReadLe(b: seq<Byte>): Option<u64>
    requires |b| == 8
  {
    ReadU64(Reversed(b))
  }

  lemma ReadLeBytes(v: u64)
    ensures ReadLe(LeBytes(v)) == Some(v)
  {
    ReadU64Bytes(v);
    assert Reversed(LeBytes(v)) == U64Bytes(v);
  }

  lemma LeBytesOfRead(b: seq<Byte>)
    requires |b| == 8
    ensures ReadLe(b).Some? ==> LeBytes(ReadLe(b).value) == b
  {
    assert Reversed(Reversed(b)) == b;
  }

  function Serialize(p: PlainTextData): (b: seq<Byte>)
    ensures |b| == 64
  {
    LeBytes(p.destinationAssetId) + LeBytes(p.destinationAmount) + LeBytes(p.expiry) + p.taker + LeBytes(p.takeMode)
  }

  /** deserialize_exact: trailing or missing bytes are errors. */
  function Deserialize(b: seq<Byte>): Option<PlainTextData> {
    if |b| != 64 then None
    else
      match (ReadLe(b[..8]), ReadLe(b[8..16]), ReadLe(b[16..24]), ReadLe(b[56..]))
      case (Some(id), Some(amount), Some(expiry), Some(mode)) =>
        Some(PlainTextData(id, amount, expiry, b[24..56], mode))
      case _ => None
  }

  /** The payload decodes to what was encoded. */
  lemma DeserializeSerialized(p: PlainTextData)
    ensures Deserialize(Serialize(p)) == Some(p)
  {
    var s := Serialize(p);
    assert s[..8] == LeBytes(p.destinationAssetId);
    assert s[8..16] == LeBytes(p.destinationAmount);
    assert s[16..24] == LeBytes(p.expiry);
    assert s[24..56] == p.taker;
    assert s[56..] == LeBytes(p.takeMode);
    ReadLeBytes(p.destinationAssetId);
    ReadLeBytes(p.destinationAmount);
    ReadLeBytes(p.expiry);
    ReadLeBytes(p.takeMode);
  }

  /** The payload's layout: asset id, amount and expiry, eight bytes each with the lowest byte first, the
      taker's 32 bytes, and the mode. */
  lemma PayloadLayout(p: PlainTextData, i: nat)
    requires i < 8
    ensures var s := Serialize(p);
            && s[i] == Byte(Raw(DigitOf(p.destinationAssetId, i)), {})
            && s[8 + i] == Byte(Raw(DigitOf(p.destinationAmount, i)), {})
            && s[16 + i] == Byte(Raw(DigitOf(p.expiry, i)), {})
            && s[24..56] == p.taker
            && s[56 + i] == Byte(Raw(DigitOf(p.takeMode, i)), {})
  {
    LeByteAt(p.destinationAssetId, i);
    LeByteAt(p.destinationAmount, i);
    LeByteAt(p.expiry, i);
    LeByteAt(p.takeMode, i);
  }

  lemma LeByteAt(v: u64, i: nat)
    requires i < 8
    ensures LeBytes(v)[i] == Byte(Raw(DigitOf(v, i)), {})
  {
    BigEndianDigit(v, 8, i);
  }

  /** Every decodable string is the encoding of what it decodes to. */
  lemma SerializeDeserialized(b: seq<Byte>)
    requires Deserialize(b).Some?
    ensures Serialize(Deserialize(b).value) == b
  {
    LeBytesOfRead(b[..8]);
    LeBytesOfRead(b[8..16]);
    LeBytesOfRead(b[16..24]);
    LeBytesOfRead(b[56..]);
    assert b == b[..8] + b[8..16] + b[16..24] + b[24..56] + b[56..];
  }

  function ToPlaintext(terms: OrderTerms, destinationAssetId: u64): PlainTextData {
    PlainTextData(destinationAssetId, terms.destinationAmount, terms.expiry, terms.taker, terms.takeMode)
  }

  /* The order note. */

  const ORDER_SECRET: Fe := ZERO

  function OrderOwner(): Fe {
    Poseidon([SolanaIdentity(ORDER_AUTHORITY), NullifierKey(ORDER_SECRET)])
  }

  /** take_blinding_seed: the domain is the ASCII tag "SWTX". */
  function TakeBlindingSeed(orderBlinding: Fe): Fe {
    Poseidon([Num(0x5357_5458), orderBlinding])
  }

  lemma TagDigits()
    ensures BigEndian(0x5357_5458, 4) == [0x53, 0x57, 0x54, 0x58] && 0x5357_5458 < Pow256(4)
  {
    assert Pow256(4) == 0x1_0000_0000;
    assert BigEndian(0x53, 1) == [0x53];
    assert BigEndian(0x5357, 2) == [0x53, 0x57];
    assert BigEndian(0x53_5754, 3) == [0x53, 0x57, 0x54];
  }

  /** The tag's four bytes at the end of a zeroed 32-byte string are the domain's encoding. */
  lemma TagEncoding()
    ensures seq(28, _ => ZERO_BYTE) + RawBytes([0x53, 0x57, 0x54, 0x58]) == Enc(Num(0x5357_5458))
  {
    TagDigits();
    var n := 0x5357_5458;
    BigEndianWiden(n, 4, 32);
  }

  /** The SDK writes the tag's bytes into a zeroed buffer and hashes the buffer. */
  method TakeBlindingSeedFromTag(orderBlinding: Fe) returns (seed: Option<Fe>)
    ensures seed == Some(TakeBlindingSeed(orderBlinding))
  {
    var domain := new Byte[32](_ => ZERO_BYTE);
    CopyFrom(domain, 28, RawBytes([0x53, 0x57, 0x54, 0x58]));
    TagEncoding();
    assert domain[..] == Enc(Num(0x5357_5458));
    HashvOfEncodings([Num(0x5357_5458), orderBlinding], [domain[..], Enc(orderBlinding)]);
    seed := Hashv([domain[..], Enc(orderBlinding)]);
  }

  datatype OrderUtxo = OrderUtxo(
    terms: OrderTerms, blinding: Fe, sourceMint: Mint, sourceAmount: u64, destinationAssetId: u64)
  {
    function DataHash(): Fe {
      ToProofInput(terms).Witness().DataHash()
    }

    /** The committed note when the order is appended to `tree`. */
    function Note(tree: u16): Utxo {
      Utxo(OrderOwner(), Num(tree), AssetField(sourceMint.asset), Num(sourceAmount), blinding, DataHash(), ZERO, ZERO)
    }

    function Leaf(tree: u16): Fe {
      Commitment(Note(tree))
    }

    function SpentBy(tree: u16): Fe {
      Nullifier(Leaf(tree), blinding, ORDER_SECRET)
    }

    /** output_utxo: the note as make creates it. */
    function ToOutputUtxo(takerViewing: seq<Byte>): OutputUtxo {
      var owner := ShieldedAddress(Ed25519(ORDER_AUTHORITY), NullifierKey(ORDER_SECRET), takerViewing);
      OutputUtxo(sourceMint, sourceAmount, blinding, Some(owner), ToProofInput(terms).DataHash(), None, None,
                 Serialize(ToPlaintext(terms, destinationAssetId)))
    }

    /** to_input_utxo: the note as a settlement spends it. */
    function ToInputUtxo(tree: u16, leafIndex: u64): InputUtxo {
      var owner := Ed25519(ORDER_AUTHORITY);
      var dataHash := ToProofInput(terms).DataHash();
      var nullifierPk := NullifierKey(ORDER_SECRET);
      var utxoHash := SpendHash(owner, nullifierPk, sourceMint, sourceAmount, blinding, OrZero(dataHash), tree);
      InputUtxo(owner, sourceMint, sourceAmount, blinding, utxoHash, Nullifier(utxoHash, blinding, ORDER_SECRET),
                nullifierPk, dataHash, tree, leafIndex)
    }

    function SourceOutput(recipient: ShieldedAddress, outputBlinding: Fe): OutputUtxo {
      PlainOutput(sourceMint, sourceAmount, outputBlinding, recipient)
    }

    function DestinationOutput(recipient: ShieldedAddress, outputBlinding: Fe): OutputUtxo {
      PlainOutput(Mint(terms.destinationMint, destinationAssetId), terms.destinationAmount, outputBlinding, recipient)
    }

    /** derived_destination_output: the maker's payout from its own opening and the published nullifier. */
    function DerivedDestinationOutput(firstNullifier: Bytes32): Result<OutputUtxo, SdkError> {
      if terms.takeMode != Circuit.TAKE_MODE_DERIVED then Err(SdkError("order does not use derived settlement"))
      else
        match Dec(firstNullifier)
        case None => Err(SdkError("hashing failed"))
        case Some(nullifier) =>
          var seed := OutputBlindingSeed(nullifier, TakeBlindingSeed(blinding));
          Ok(DestinationOutput(terms.destination, OutputBlinding(nullifier, seed, 1)))
    }
  }

  /** The note minted and the note spent are the same note, whoever's viewing key and whichever
      leaf: one commitment, one nullifier. */
  lemma RepresentationsAgree(o: OrderUtxo, takerViewing: seq<Byte>, tree: u16, leafIndex: u64)
    ensures ToProofUtxo(o.ToOutputUtxo(takerViewing), tree) == Ok(o.Note(tree))
    ensures OutputHash(o.ToOutputUtxo(takerViewing), tree) == Ok(o.ToInputUtxo(tree, leafIndex).utxoHash)
    ensures o.ToInputUtxo(tree, leafIndex).utxoHash == o.Leaf(tree)
    ensures o.ToInputUtxo(tree, leafIndex).nullifier == o.SpentBy(tree)
  {
  }

  /** The note as it is spent carries its own opening: its fields hash to its commitment, and its nullifier
      is that of the order's secret. */
  lemma InputOpensItself(o: OrderUtxo, tree: u16, leafIndex: u64)
    ensures var note := o.ToInputUtxo(tree, leafIndex);
            && note.dataHash.Some?
            && note.utxoHash == SpendHash(note.owner, note.nullifierPk, note.asset, note.amount, note.blinding,
                                          note.dataHash.value, note.treeId)
            && note.utxoHash == o.Leaf(tree) && note.nullifierPk == NullifierKey(ZERO)
            && note.nullifier == Nullifier(note.utxoHash, note.blinding, ZERO)
            && note.asset == o.sourceMint && note.treeId == tree && note.leafIndex == leafIndex
  {
  }

  /** The note as it is made is addressed to the taker's viewing key and publishes the five values the taker
      cannot know from the leaf. */
  lemma OutputPublishesTerms(o: OrderUtxo, takerViewing: seq<Byte>)
    ensures var output := o.ToOutputUtxo(takerViewing);
            && output.ownerAddress.Some? && output.ownerAddress.value.viewing == takerViewing
            && output.asset == o.sourceMint && output.amount == o.sourceAmount && output.blinding == o.blinding
            && Deserialize(output.utxoData)
               == Some(PlainTextData(o.destinationAssetId, o.terms.destinationAmount, o.terms.expiry, o.terms.taker,
                                     o.terms.takeMode))
  {
    DeserializeSerialized(ToPlaintext(o.terms, o.destinationAssetId));
  }

  /** The opening a leaf commits to; the two asset ids are not part of it. */
  predicate SameOpening(a: OrderUtxo, b: OrderUtxo) {
    && a.terms == b.terms
    && a.blinding == b.blinding
    && a.sourceMint.asset == b.sourceMint.asset
    && a.sourceAmount == b.sourceAmount
  }

  /** A leaf and a nullifier each belong to one opening in one tree. */
  lemma LeafIffOpening(a: OrderUtxo, s: u16, b: OrderUtxo, t: u16)
    ensures a.Leaf(s) == b.Leaf(t) <==> SameOpening(a, b) && s == t
    ensures a.SpentBy(s) == b.SpentBy(t) <==> SameOpening(a, b) && s == t
  {
    if a.Leaf(s) == b.Leaf(t) {
      Circuit.DataHashInjective(ToProofInput(a.terms).Witness(), ToProofInput(b.terms).Witness());
      WitnessInjective(a.terms, b.terms);
    }
  }
}
