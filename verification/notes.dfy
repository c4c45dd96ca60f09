/** Keys, addresses and the SDK's view of an output before it becomes a commitment. */
module Notes {
  import opened Ideal

  type Address = b: seq<Byte> | |b| == 32 witness seq(32, _ => ZERO_BYTE)

  // The two program-derived owners. Only their distinctness matters; the derivation is not modelled.
  const ORDER_AUTHORITY: Address := Enc(Num(1))
  const ESCROW_AUTHORITY: Address := Enc(Num(2))

  lemma AuthoritiesDiffer()
    ensures ORDER_AUTHORITY != ESCROW_AUTHORITY
  {
    DecEnc(Num(1));
    DecEnc(Num(2));
  }

  predicate IsAuthority(a: Address) {
    a == ORDER_AUTHORITY || a == ESCROW_AUTHORITY
  }

  datatype PublicKey = Ed25519(key: Address) | P256(point: seq<Byte>)

  /** owner_proof_input_hash: how an owner's key enters the circuits. */
  function OwnerField(pk: PublicKey): Fe {
    match pk
    case Ed25519(key) => SolanaIdentity(key)
    case P256(point) => P256Identity(point)
  }

  datatype ShieldedAddress = ShieldedAddress(signing: PublicKey, nullifierPk: Fe, viewing: seq<Byte>)
  {
    function OwnerHash(): Fe {
      Poseidon([OwnerField(signing), nullifierPk])
    }
  }

  lemma OwnerHashInjective(a: ShieldedAddress, b: ShieldedAddress)
    requires a.OwnerHash() == b.OwnerHash() && a.viewing == b.viewing
    ensures a == b
  {
    assert a.OwnerHash().args[0] == b.OwnerHash().args[0];
    assert a.OwnerHash().args[1] == b.OwnerHash().args[1];
  }

  /** The owner hash opens to exactly one identity and nullifier key. */
  lemma OwnerHashOpens(a: ShieldedAddress, identity: Fe, nullifierPk: Fe)
    requires a.OwnerHash() == Poseidon([identity, nullifierPk])
    ensures OwnerField(a.signing) == identity && a.nullifierPk == nullifierPk
  {
    assert a.OwnerHash().args[0] == identity;
    assert a.OwnerHash().args[1] == nullifierPk;
  }

  // An asset as the SDK holds it; only the mint enters a commitment.
  datatype Mint = Mint(asset: Address, id: u64)

  function AssetField(mint: Address): Fe {
    BytesHash(mint)
  }

  // SppProofOutputUtxo.
  datatype OutputUtxo = OutputUtxo(
    asset: Mint, amount: u64, blinding: Fe, ownerAddress: Option<ShieldedAddress>,
    dataHash: Option<Fe>, ringDataHash: Option<Fe>, ringProgramId: Option<Fe>, utxoData: seq<Byte>)

  function PlainOutput(asset: Mint, amount: u64, blinding: Fe, owner: ShieldedAddress): OutputUtxo {
    OutputUtxo(asset, amount, blinding, Some(owner), None, None, None, [])
  }

  datatype SdkError = SdkError(message: string)

  function OrZero(f: Option<Fe>): Fe {
    if f.Some? then f.value else ZERO
  }

  /** ProofInputUtxo::try_from((output, tree)). */
  function ToProofUtxo(o: OutputUtxo, tree: u16): (r: Result<Utxo, SdkError>)
    ensures r.Ok? && o.ringProgramId.Some? ==> r.value.ringProgram == o.ringProgramId.value
    ensures r.Ok? && o.ringDataHash.Some? ==> r.value.ringDataHash == o.ringDataHash.value
  {
    if o.ownerAddress.None? then Err(SdkError("output owner address missing"))
    else Ok(Utxo(o.ownerAddress.value.OwnerHash(), Num(tree), AssetField(o.asset.asset), Num(o.amount),
                 o.blinding, OrZero(o.dataHash), OrZero(o.ringProgramId), OrZero(o.ringDataHash)))
  }

  /** The commitment of an output appended to `tree`. */
  function OutputHash(o: OutputUtxo, tree: u16): Result<Fe, SdkError> {
    match ToProofUtxo(o, tree)
    case Ok(u) => Ok(Commitment(u))
    case Err(e) => Err(e)
  }

  /** An output note with no data and no ring. */
  function PlainNote(owner: Fe, tree: Fe, asset: Fe, amount: Fe, blinding: Fe): Utxo {
    Utxo(owner, tree, asset, amount, blinding, ZERO, ZERO, ZERO)
  }

  /** check_output_utxo: the owner of a well-formed plain output of `amount` of `mint`. */
  function CheckOutputUtxo(o: OutputUtxo, mint: Address, amount: u64): (r: Result<ShieldedAddress, SdkError>)
    ensures r.Ok? ==>
              forall tree: u16 ::
                ToProofUtxo(o, tree)
                == Ok(PlainNote(r.value.OwnerHash(), Num(tree), AssetField(mint), Num(amount), o.blinding))
  {
    if o.ownerAddress.None? then Err(SdkError("owner address missing"))
    else if o.asset.asset != mint then Err(SdkError("asset mismatch"))
    else if o.amount != amount then Err(SdkError("amount mismatch"))
    else if o.dataHash.Some? || o.ringDataHash.Some? || o.ringProgramId.Some? then
      Err(SdkError("must not carry data or ring commitments"))
    else Ok(o.ownerAddress.value)
  }

  // SppProofInputUtxo, the fields a spend needs.
  datatype InputUtxo = InputUtxo(
    owner: PublicKey, asset: Mint, amount: u64, blinding: Fe, utxoHash: Fe, nullifier: Fe,
    nullifierPk: Fe, dataHash: Option<Fe>, treeId: u16, leafIndex: u64)

  /** Utxo::hash: the commitment from the spender's side. */
  function SpendHash(owner: PublicKey, nullifierPk: Fe, asset: Mint, amount: u64, blinding: Fe, dataHash: Fe,
                     tree: u16): Fe {
    Commitment(Utxo(Poseidon([OwnerField(owner), nullifierPk]), Num(tree), AssetField(asset.asset), Num(amount),
                    blinding, dataHash, ZERO, ZERO))
  }
}
