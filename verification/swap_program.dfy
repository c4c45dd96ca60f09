/** Accounts, clock windows and the call into the pool that both programs share. */
module Runtime {
  import opened Ideal
  import opened Notes
  import opened Pool

  datatype Error =
    | Expired
    | NotYetExpired
    | NotYetUnlocked
    | ProofVerificationFailed
    | InvalidInstructionData
    | MissingAuthority
    | InvalidMarkerMessage
    | MarkerDataNotEmpty
    | HashingFailed
    | NotEnoughAccountKeys
    | InvalidSigner
    | AccountNotMutable
    | RejectedByPool

  datatype Account = Account(address: Address, isSigner: bool, isWritable: bool)

  // What a processor forwards to the pool.
  datatype PoolCall = PoolCall(transact: Transact, signers: set<Fe>)

  function NextSigner(accounts: seq<Account>): Result<Address, Error> {
    if accounts == [] then Err(NotEnoughAccountKeys)
    else if !accounts[0].isSigner then Err(InvalidSigner)
    else Ok(accounts[0].address)
  }

  function NextSignerMut(accounts: seq<Account>): Result<Address, Error> {
    match NextSigner(accounts)
    case Err(e) => Err(e)
    case Ok(address) => if accounts[0].isWritable then Ok(address) else Err(AccountNotMutable)
  }

  predicate CheckWithinWindow(now: i64, expiry: u64) {
    now >= 0 && now <= expiry
  }

  predicate CheckAfterWindow(now: i64, expiry: u64) {
    now >= 0 && now > expiry
  }

  /** The identities that sign the pool call: the forwarded signers, and the program's own
      authority, which must be among the forwarded accounts. */
  function CallSigners(accounts: seq<Account>, authority: Address): set<Fe> {
    set a | a in accounts && (a.isSigner || a.address == authority) :: SolanaIdentity(a.address)
  }

  predicate Forwarded(accounts: seq<Account>, authority: Address) {
    exists i :: 0 <= i < |accounts| && accounts[i].address == authority
  }

  /** cpi_spp_transact_signed, up to the pool itself. */
  function CpiTransactSigned(accounts: seq<Account>, authority: Address, tx: Transact): Result<PoolCall, Error> {
    if Forwarded(accounts, authority)
    then Ok(PoolCall(tx, CallSigners(accounts, authority)))
    else Err(MissingAuthority)
  }

  /** The first account signs and pays. */
  predicate IsPayer(accounts: seq<Account>) {
    |accounts| > 0 && accounts[0].isSigner && accounts[0].isWritable
  }

  /** No account can sign for a program-derived address. */
  predicate NoAuthoritySigns(accounts: seq<Account>) {
    forall i :: 0 <= i < |accounts| && accounts[i].isSigner ==> !IsAuthority(accounts[i].address)
  }
}

/** The four instruction processors of the swap program. */
module SwapProgram {
  import opened Ideal
  import opened Notes
  import opened Pool
  import opened Runtime
  import MakeCircuit
  import TakeCircuit
  import VerifiableTakeCircuit
  import CancelCircuit

  // An undecodable instruction is None.
  datatype MakeIx = MakeIx(proof: MakeCircuit.Witness, transact: Transact)
  datatype TakeIx = TakeIx(proof: TakeCircuit.Witness, transact: Transact)
  datatype VerifiableTakeIx = VerifiableTakeIx(proof: VerifiableTakeCircuit.Witness, transact: Transact)
  datatype CancelIx = CancelIx(proof: CancelCircuit.Witness, orderExpiry: u64, transact: Transact)

  const ORDER_OUTPUT_INDEX: nat := 1

  /** MarkerData, Borsh encoded: the order hash, then the maker's key. */
  function MarkerBytes(orderUtxoHash: Bytes32, makerPubkey: Address): seq<Byte> {
    orderUtxoHash + makerPubkey
  }

  /* Public inputs. */

  function TakePublicInput(privateTxHash: Bytes32, expiry: u64, firstNullifier: Bytes32): Option<Fe> {
    Hashv([privateTxHash, U64RightAligned(expiry), firstNullifier])
  }

  function VerifiableTakePublicInput(privateTxHash: Bytes32, expiry: u64, ciphertext: seq<Byte>): Result<Fe, Error> {
    if |ciphertext| != 72 then Err(InvalidInstructionData)
    else
      match Hashv([privateTxHash, U64RightAligned(expiry), Enc(BytesHash(ciphertext))])
      case Some(h) => Ok(h)
      case None => Err(HashingFailed)
  }

  function CancelPublicInput(privateTxHash: Bytes32, expiry: u64, makerOwnerPkField: Fe): Option<Fe> {
    Hashv([privateTxHash, U64RightAligned(expiry), Enc(makerOwnerPkField)])
  }

  /* The checks of each processor, in order, up to the pool call. */

  /** The marker the program writes into the single, empty message. */
  function FillMarker(payer: Address, tx: Transact): Result<Transact, Error> {
    if |tx.outputs| <= ORDER_OUTPUT_INDEX then Err(InvalidInstructionData)
    else if |tx.messages| != 1 then Err(InvalidMarkerMessage)
    else if tx.messages[0].data != [] then Err(MarkerDataNotEmpty)
    else Ok(tx.(messages := [tx.messages[0].(data := MarkerBytes(tx.outputs[ORDER_OUTPUT_INDEX].utxoHash, payer))]))
  }

  function MakeCall(accounts: seq<Account>, data: Option<MakeIx>): (r: Result<PoolCall, Error>)
    ensures r.Ok? ==> |accounts| >= 1 && r.value.signers == CallSigners(accounts[1..], ORDER_AUTHORITY)
    ensures r.Ok? ==> data.Some? && r.value.transact == data.value.transact.(messages := r.value.transact.messages)
  {
    match NextSignerMut(accounts)
    case Err(e) => Err(e)
    case Ok(payer) =>
      if data.None? then Err(InvalidInstructionData)
      else
        var proof, tx := data.value.proof, data.value.transact;
        var publicInput := Dec(tx.privateTxHash);
        if publicInput.None? || !MakeCircuit.Define(publicInput.value, proof) then Err(ProofVerificationFailed)
        else
          match FillMarker(payer, tx)
          case Err(e) => Err(e)
          case Ok(filled) => CpiTransactSigned(accounts[1..], ORDER_AUTHORITY, filled)
  }

  function TakeCall(now: i64, accounts: seq<Account>, data: Option<TakeIx>): (r: Result<PoolCall, Error>)
    ensures r.Ok? ==> |accounts| >= 1 && r.value.signers == CallSigners(accounts[1..], ORDER_AUTHORITY)
    ensures r.Ok? ==> data.Some? && r.value.transact == data.value.transact
  {
    match NextSignerMut(accounts)
    case Err(e) => Err(e)
    case Ok(_) =>
      if data.None? then Err(InvalidInstructionData)
      else
        var proof, tx := data.value.proof, data.value.transact;
        if !CheckWithinWindow(now, tx.expiry) then Err(Expired)
        else if tx.inputs == [] then Err(InvalidInstructionData)
        else
          var publicInput := TakePublicInput(tx.privateTxHash, tx.expiry, tx.inputs[0]);
          if publicInput.None? then Err(HashingFailed)
          else if !TakeCircuit.Define(publicInput.value, proof) then Err(ProofVerificationFailed)
          else CpiTransactSigned(accounts[1..], ORDER_AUTHORITY, tx)
  }

  function VerifiableTakeCall(now: i64, accounts: seq<Account>, data: Option<VerifiableTakeIx>)
    : (r: Result<PoolCall, Error>)
    ensures r.Ok? ==> |accounts| >= 1 && r.value.signers == CallSigners(accounts[1..], ORDER_AUTHORITY)
    ensures r.Ok? ==> data.Some? && r.value.transact == data.value.transact
  {
    match NextSignerMut(accounts)
    case Err(e) => Err(e)
    case Ok(_) =>
      if data.None? then Err(InvalidInstructionData)
      else
        var proof, tx := data.value.proof, data.value.transact;
        if !CheckWithinWindow(now, tx.expiry) then Err(Expired)
        else if tx.outputs == [] || tx.outputs[|tx.outputs| - 1].data.None? then Err(InvalidInstructionData)
        else
          match VerifiableTakePublicInput(tx.privateTxHash, tx.expiry, tx.outputs[|tx.outputs| - 1].data.value)
          case Err(e) => Err(e)
          case Ok(publicInput) =>
            if !VerifiableTakeCircuit.Define(publicInput, proof) then Err(ProofVerificationFailed)
            else CpiTransactSigned(accounts[1..], ORDER_AUTHORITY, tx)
  }

  function CancelCall(now: i64, accounts: seq<Account>, data: Option<CancelIx>): (r: Result<PoolCall, Error>)
    ensures r.Ok? ==> |accounts| >= 2 && r.value.signers == CallSigners(accounts[2..], ORDER_AUTHORITY)
    ensures r.Ok? ==> data.Some? && r.value.transact == data.value.transact
  {
    match NextSignerMut(accounts)
    case Err(e) => Err(e)
    case Ok(_) =>
      match NextSigner(accounts[1..])
      case Err(e) => Err(e)
      case Ok(maker) =>
        if data.None? then Err(InvalidInstructionData)
        else
          var proof, orderExpiry, tx := data.value.proof, data.value.orderExpiry, data.value.transact;
          if !CheckAfterWindow(now, orderExpiry) then Err(NotYetExpired)
          else
            var publicInput := CancelPublicInput(tx.privateTxHash, orderExpiry, SolanaIdentity(maker));
            if publicInput.None? then Err(HashingFailed)
            else if !CancelCircuit.Define(publicInput.value, proof) then Err(ProofVerificationFailed)
            else CpiTransactSigned(accounts[2..], ORDER_AUTHORITY, tx)
  }
}
