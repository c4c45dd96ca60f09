/** Exactly which instructions the six processors forward to the pool, what they forward, and with which
    error they refuse the rest. Everything is said of the accounts, the clock, the transaction and the
    notes of the witness; neither the public input nor the circuits' own predicates occur in it. */
module Acceptance {
  import opened Ideal
  import opened Notes
  import opened Pool
  import opened Runtime
  import opened SwapProgram
  import opened EscrowProgram
  import opened EscrowCircuits
  import opened OrderTermsCircuit
  import CancelCircuit
  import Cipher
  import MakeCircuit
  import TakeCircuit
  import VerifiableTakeCircuit

  /* Accounts. */

  /** Why the first account is refused as a payer. */
  function PayerError(accounts: seq<Account>): Error
    requires !IsPayer(accounts)
  {
    if |accounts| == 0 then NotEnoughAccountKeys
    else if accounts[0].isSigner then AccountNotMutable
    else InvalidSigner
  }

  predicate AuthorityFrom(accounts: seq<Account>, from: nat, authority: Address) {
    exists i :: from <= i < |accounts| && accounts[i].address == authority
  }

  /** The key signs the call: an account past the consumed ones that is a signer or the authority. */
  predicate SignsFrom(accounts: seq<Account>, from: nat, authority: Address, key: Address) {
    exists i :: from <= i < |accounts| && accounts[i].address == key && (accounts[i].isSigner || key == authority)
  }

  /** The call carries `tx` and the signatures of exactly the forwarded signers and the authority. */
  ghost predicate CallCarries(call: PoolCall, tx: Transact, accounts: seq<Account>, from: nat, authority: Address) {
    && call.transact == tx
    && (forall key: Address :: SolanaIdentity(key) in call.signers <==> SignsFrom(accounts, from, authority, key))
    && (forall f :: f in call.signers ==> f.SolanaIdentity? && |f.solanaKey| == 32)
  }

  lemma ForwardedFrom(accounts: seq<Account>, from: nat, authority: Address)
    requires from <= |accounts|
    ensures Forwarded(accounts[from..], authority) <==> AuthorityFrom(accounts, from, authority)
  {
    var forwarded := accounts[from..];
    if i :| from <= i < |accounts| && accounts[i].address == authority {
      assert forwarded[i - from] == accounts[i];
    }
  }

  lemma SignsForwarded(accounts: seq<Account>, from: nat, authority: Address, key: Address)
    requires from <= |accounts|
    ensures SolanaIdentity(key) in CallSigners(accounts[from..], authority)
            <==> SignsFrom(accounts, from, authority, key)
  {
    var forwarded := accounts[from..];
    if SolanaIdentity(key) in CallSigners(forwarded, authority) {
      var a :| a in forwarded && a.address == key && (a.isSigner || a.address == authority);
      var k :| 0 <= k < |forwarded| && forwarded[k] == a;
      assert accounts[k + from] == a;
    }
    if i :| from <= i < |accounts| && accounts[i].address == key && (accounts[i].isSigner || key == authority) {
      assert forwarded[i - from] == accounts[i];
    }
  }

  lemma ForwardedCarries(tx: Transact, accounts: seq<Account>, from: nat, authority: Address)
    requires from <= |accounts|
    ensures CallCarries(PoolCall(tx, CallSigners(accounts[from..], authority)), tx, accounts, from, authority)
  {
    forall key: Address
      ensures SolanaIdentity(key) in CallSigners(accounts[from..], authority)
              <==> SignsFrom(accounts, from, authority, key)
    {
      SignsForwarded(accounts, from, authority, key);
    }
  }

  /** What every processor ends with: the authority must be forwarded, and then the call is. */
  lemma CpiExactly(tx: Transact, accounts: seq<Account>, from: nat, authority: Address)
    requires from <= |accounts|
    ensures var r := CpiTransactSigned(accounts[from..], authority, tx);
            if AuthorityFrom(accounts, from, authority) then r.Ok? && CallCarries(r.value, tx, accounts, from,
                                                                                  authority)
            else r == Err(MissingAuthority)
  {
    ForwardedFrom(accounts, from, authority);
    ForwardedCarries(tx, accounts, from, authority);
  }

  /* Byte strings. */

  /** The string canonically encodes a field element. */
  ghost predicate IsEncoding(b: Bytes32) {
    exists f: Fe :: b == Enc(f)
  }

  lemma DecodesIff(b: Bytes32)
    ensures Dec(b).Some? <==> IsEncoding(b)
    ensures Dec(b).Some? ==> b == Enc(Dec(b).value)
  {
    DecIsEnc(b);
    if f: Fe :| b == Enc(f) {
      DecEnc(f);
    }
  }

  /** Three public values hash to the public input of `x`, `y` and `z` exactly when they encode them. */
  lemma PublicInputIff(first: Bytes32, second: u64, third: Bytes32, x: Fe, y: Fe, z: Fe)
    ensures var h := Hashv([first, U64RightAligned(second), third]);
            && (h.Some? <==> IsEncoding(first) && IsEncoding(third))
            && (h == Some(Poseidon([x, y, z])) <==> first == Enc(x) && y == Num(second) && third == Enc(z))
  {
    DecodesIff(first);
    DecodesIff(third);
    var inputs := [first, U64RightAligned(second), third];
    if Dec(first).Some? && Dec(third).Some? {
      HashvOfEncodings([Dec(first).value, Num(second), Dec(third).value], inputs);
    }
    if Hashv(inputs).Some? {
      var args := Hashv(inputs).value.args;
      assert inputs[0] == Enc(args[0]) && inputs[1] == Enc(args[1]) && inputs[2] == Enc(args[2]);
      EncInjective(args[1], Num(second));
      assert args == [args[0], args[1], args[2]];
      if first == Enc(x) && third == Enc(z) {
        EncInjective(args[0], x);
        EncInjective(args[2], z);
      }
    }
  }

  /* Notes. */

  /** Exactly a plain note: no data, no ring. */
  predicate Plain(u: Utxo, owner: Fe, asset: Fe) {
    u == Utxo(owner, u.treeId, asset, u.amount, u.blinding, Num(0), Num(0), Num(0))
  }

  /** A nonzero note without ring that commits to all seven terms. */
  predicate Locks(u: Utxo, order: OrderTerms) {
    && u.ringProgram == Num(0) && u.ringDataHash == Num(0) && u.amount != Num(0)
    && u.dataHash
       == Poseidon([order.destinationAsset, order.destinationAmount,
                    Poseidon([order.makerOwnerHash, BytesHash(order.makerViewingPk)]), order.expiry,
                    order.takerPkFe, order.takeMode])
  }

  /** A nonzero 64-bit destination amount and a mode that names a rail. */
  predicate Sound(order: OrderTerms) {
    && order.destinationAmount.Num? && 0 < order.destinationAmount.n < 0x1_0000_0000_0000_0000
    && (order.takeMode == Num(0) || order.takeMode == Num(1))
  }

  lemma SoundIff(order: OrderTerms)
    ensures order.Check() <==> Sound(order)
  {
  }

  lemma LocksIff(u: Utxo, order: OrderTerms)
    ensures IsOrderUtxo(order, u) <==> Locks(u, order)
  {
  }

  lemma PlainIff(u: Utxo, owner: Fe, asset: Fe)
    ensures IsPlainUtxo(u, owner, asset) <==> Plain(u, owner, asset)
  {
  }

  /** Of the two inputs of a lock step, a zero source hash is padding; its notes never are. */
  function LockTxHash(sourceInputHash: Fe, change: Utxo, locked: Utxo, txBlinding: Fe): Fe {
    PrivateTx(if sourceInputHash == Num(0) then [] else [sourceInputHash],
              [Commitment(change), Commitment(locked)], txBlinding)
  }

  lemma LockTxHashOf(sourceInputHash: Fe, change: Utxo, locked: Utxo, txBlinding: Fe)
    ensures PrivateTxHash([sourceInputHash, ZERO], [Commitment(change), Commitment(locked)], txBlinding)
            == LockTxHash(sourceInputHash, change, locked, txBlinding)
  {
    NonZeroPair(sourceInputHash, ZERO);
    NonZeroPair(Commitment(change), Commitment(locked));
  }

  lemma RefundTxHashOf(locked: Utxo, refund: Utxo, txBlinding: Fe)
    ensures PrivateTxHash([Commitment(locked)], [Commitment(refund)], txBlinding)
            == PrivateTx([Commitment(locked)], [Commitment(refund)], txBlinding)
  {
    NonZeroSingle(Commitment(locked));
    NonZeroSingle(Commitment(refund));
  }

  /* make */

  /** The proof of a make: sound terms, the order note that locks them, the maker's plain change of the
      same asset, and the transaction that appends the two. */
  predicate MakeProved(ix: MakeIx) {
    var w := ix.proof;
    && Sound(w.order) && Locks(w.orderUtxo, w.order) && Plain(w.change, w.order.makerOwnerHash, w.orderUtxo.asset)
    && ix.transact.privateTxHash == Enc(LockTxHash(w.sourceInputHash, w.change, w.orderUtxo, w.privateTxBlinding))
  }

  lemma MakeProvedIff(ix: MakeIx)
    ensures var h := Dec(ix.transact.privateTxHash);
            h.Some? && MakeCircuit.Define(h.value, ix.proof) <==> MakeProved(ix)
  {
    var w := ix.proof;
    SoundIff(w.order);
    LocksIff(w.orderUtxo, w.order);
    PlainIff(w.change, w.order.makerOwnerHash, w.orderUtxo.asset);
    LockTxHashOf(w.sourceInputHash, w.change, w.orderUtxo, w.privateTxBlinding);
    DecIsEnc(ix.transact.privateTxHash);
    DecEnc(LockTxHash(w.sourceInputHash, w.change, w.orderUtxo, w.privateTxBlinding));
  }

  /** The one message, still empty, and an output for it to name. */
  predicate AwaitsMarker(tx: Transact) {
    |tx.outputs| >= 2 && |tx.messages| == 1 && tx.messages[0].data == []
  }

  /** The transaction with the second output's hash and the payer's key in its message. */
  function Marked(tx: Transact, payer: Address): Transact
    requires AwaitsMarker(tx)
  {
    tx.(messages := [Message(tx.messages[0].viewTag, tx.outputs[1].utxoHash + payer)])
  }

  /** A make is forwarded exactly when its payer signs, its proof holds, its one message is empty and the
      authority is forwarded; what is forwarded is the transaction with the marker filled in. */
  lemma MakeForwarded(accounts: seq<Account>, ix: MakeIx)
    ensures MakeCall(accounts, Some(ix)).Ok?
            <==> && IsPayer(accounts) && MakeProved(ix) && AwaitsMarker(ix.transact)
                 && AuthorityFrom(accounts, 1, ORDER_AUTHORITY)
    ensures MakeCall(accounts, Some(ix)).Ok? ==>
              CallCarries(MakeCall(accounts, Some(ix)).value, Marked(ix.transact, accounts[0].address), accounts, 1,
                      ORDER_AUTHORITY)
  {
    MakeProvedIff(ix);
    if IsPayer(accounts) && AwaitsMarker(ix.transact) {
      CpiExactly(Marked(ix.transact, accounts[0].address), accounts, 1, ORDER_AUTHORITY);
    }
  }

  /** The error of a refused make is that of the first check that fails. */
  lemma MakeRefused(accounts: seq<Account>, ix: MakeIx)
    ensures var r, tx := MakeCall(accounts, Some(ix)), ix.transact;
            if !IsPayer(accounts) then r == Err(PayerError(accounts)) else
            && (r == Err(ProofVerificationFailed) <==> !MakeProved(ix))
            && (r == Err(InvalidInstructionData) <==> MakeProved(ix) && |tx.outputs| < 2)
            && (r == Err(InvalidMarkerMessage) <==> MakeProved(ix) && |tx.outputs| >= 2 && |tx.messages| != 1)
            && (r == Err(MarkerDataNotEmpty) <==>
                  MakeProved(ix) && |tx.outputs| >= 2 && |tx.messages| == 1 && tx.messages[0].data != [])
            && (r == Err(MissingAuthority) <==>
                  MakeProved(ix) && AwaitsMarker(tx) && !AuthorityFrom(accounts, 1, ORDER_AUTHORITY))
    ensures MakeCall(accounts, None) == Err(if IsPayer(accounts) then InvalidInstructionData else PayerError(accounts))
  {
    MakeProvedIff(ix);
    if IsPayer(accounts) {
      ForwardedFrom(accounts, 1, ORDER_AUTHORITY);
    }
  }

  /* take and take_verifiable_encryption */

  /** The four notes of a take: the order's, the taker's in the asset and amount the terms ask for, the
      whole source for the taker, and what they ask for for the maker. */
  predicate Pays(core: TakeCircuit.Core, privateTxHash: Fe) {
    var order, taker, source, destination := core.order, core.takerIn, core.sourceOutput, core.destinationOutput;
    && Sound(order) && Locks(core.orderUtxo, order)
    && Plain(taker, taker.owner, order.destinationAsset) && taker.amount == order.destinationAmount
    && Plain(source, taker.owner, core.orderUtxo.asset) && source.amount == core.orderUtxo.amount
    && Plain(destination, order.makerOwnerHash, order.destinationAsset) && destination.amount == order.destinationAmount
    && privateTxHash
       == PrivateTx([Commitment(core.orderUtxo), Commitment(taker)], [Commitment(source), Commitment(destination)],
                    core.privateTxBlinding)
  }

  lemma PaysIff(core: TakeCircuit.Core, privateTxHash: Fe)
    ensures core.Check(privateTxHash) <==> Pays(core, privateTxHash)
  {
    SoundIff(core.order);
    LocksIff(core.orderUtxo, core.order);
    PlainIff(core.takerIn, core.takerIn.owner, core.order.destinationAsset);
    PlainIff(core.sourceOutput, core.takerIn.owner, core.orderUtxo.asset);
    PlainIff(core.destinationOutput, core.order.makerOwnerHash, core.order.destinationAsset);
    LockTxHashOf(ZERO, core.sourceOutput, core.destinationOutput, core.privateTxBlinding);
    NonZeroPair(Commitment(core.orderUtxo), Commitment(core.takerIn));
  }

  /** Every blinding of a derived take comes from the order's blinding and the nullifier that is
      published first: the transaction's, the taker's payout's at index 0, the maker's at index 1. */
  predicate Derives(w: TakeCircuit.Witness) {
    var tagged := Poseidon([Num(0x5357_5458), w.core.orderUtxo.blinding]);
    var seed := OutputBlindingSeed(w.firstNullifier, tagged);
    && w.core.privateTxBlinding == PrivateTxBlinding(w.firstNullifier, tagged)
    && w.core.sourceOutput.blinding == OutputBlinding(w.firstNullifier, seed, 0)
    && w.core.destinationOutput.blinding == OutputBlinding(w.firstNullifier, seed, 1)
  }

  lemma DerivesIff(w: TakeCircuit.Witness)
    ensures Derives(w)
            <==> TakeCircuit.TransactionBlindings(w.firstNullifier,
                                                  TakeCircuit.BlindingSeed(w.core.orderUtxo.blinding),
                                                  w.core.privateTxBlinding, w.core.sourceOutput.blinding,
                                                  w.core.destinationOutput.blinding)
  {
  }

  /** The proof of a derived take, for the transaction's own hash, deadline and first nullifier. */
  predicate TakeProved(ix: TakeIx) {
    var w, tx := ix.proof, ix.transact;
    && w.core.order.takeMode == Num(0) && w.core.order.expiry == Num(tx.expiry)
    && Pays(w.core, w.privateTxHash) && Derives(w)
    && tx.privateTxHash == Enc(w.privateTxHash) && tx.inputs != [] && tx.inputs[0] == Enc(w.firstNullifier)
  }

  lemma TakeProvedIff(ix: TakeIx)
    requires ix.transact.inputs != []
    ensures var tx := ix.transact;
            var h := TakePublicInput(tx.privateTxHash, tx.expiry, tx.inputs[0]);
            && (h.Some? <==> IsEncoding(tx.privateTxHash) && IsEncoding(tx.inputs[0]))
            && (h.Some? && TakeCircuit.Define(h.value, ix.proof) <==> TakeProved(ix))
  {
    var w, tx := ix.proof, ix.transact;
    PublicInputIff(tx.privateTxHash, tx.expiry, tx.inputs[0], w.privateTxHash, w.core.order.expiry, w.firstNullifier);
    PaysIff(w.core, w.privateTxHash);
    DerivesIff(w);
  }

  predicate InWindow(now: i64, expiry: u64) {
    0 <= now && now <= expiry
  }

  /** A derived take is forwarded, unchanged, exactly when its payer signs, the clock is in the window, its
      proof holds and the authority is forwarded. */
  lemma TakeForwarded(now: i64, accounts: seq<Account>, ix: TakeIx)
    ensures TakeCall(now, accounts, Some(ix)).Ok?
            <==> && IsPayer(accounts) && InWindow(now, ix.transact.expiry) && TakeProved(ix)
                 && AuthorityFrom(accounts, 1, ORDER_AUTHORITY)
    ensures TakeCall(now, accounts, Some(ix)).Ok? ==>
              CallCarries(TakeCall(now, accounts, Some(ix)).value, ix.transact, accounts, 1, ORDER_AUTHORITY)
  {
    if IsPayer(accounts) && ix.transact.inputs != [] {
      TakeProvedIff(ix);
      CpiExactly(ix.transact, accounts, 1, ORDER_AUTHORITY);
    }
  }

  lemma TakeRefused(now: i64, accounts: seq<Account>, ix: TakeIx)
    ensures var r, tx := TakeCall(now, accounts, Some(ix)), ix.transact;
            if !IsPayer(accounts) then r == Err(PayerError(accounts))
            else if !InWindow(now, tx.expiry) then r == Err(Expired)
            else if tx.inputs == [] then r == Err(InvalidInstructionData)
            else if !(IsEncoding(tx.privateTxHash) && IsEncoding(tx.inputs[0])) then r == Err(HashingFailed)
            else
            && (r == Err(ProofVerificationFailed) <==> !TakeProved(ix))
            && (r == Err(MissingAuthority) <==> TakeProved(ix) && !AuthorityFrom(accounts, 1, ORDER_AUTHORITY))
    ensures TakeCall(now, accounts, None)
            == Err(if IsPayer(accounts) then InvalidInstructionData else PayerError(accounts))
  {
    if IsPayer(accounts) && ix.transact.inputs != [] {
      TakeProvedIff(ix);
      CpiExactly(ix.transact, accounts, 1, ORDER_AUTHORITY);
    }
  }

  /** The payout sealed for the maker: amount, asset and blinding, 72 bytes, under a key made of the
      order's blinding. */
  function SealedPayout(core: TakeCircuit.Core): (b: seq<Byte>)
    requires core.order.destinationAmount.Num? && core.order.destinationAmount.n < 0x1_0000_0000_0000_0000
    ensures |b| == 72
  {
    Cipher.ApplyKeystream(Poseidon([core.orderUtxo.blinding, Num(0x5357_4150_5441_4b45)]),
                          U64Bytes(core.order.destinationAmount.n) + Enc(core.order.destinationAsset)
                          + Enc(core.destinationOutput.blinding))
  }

  /** The proof of an encrypted take: the taker's note belongs to the committed taker, and the last
      output carries the sealed payout. */
  predicate VerifiableTakeProved(ix: VerifiableTakeIx) {
    var w, tx := ix.proof, ix.transact;
    && w.core.order.takeMode == Num(1) && w.core.order.expiry == Num(tx.expiry)
    && Pays(w.core, w.privateTxHash)
    && w.core.takerIn.owner == Poseidon([w.core.order.takerPkFe, w.takerNullifierPk])
    && tx.privateTxHash == Enc(w.privateTxHash)
    && tx.outputs != [] && tx.outputs[|tx.outputs| - 1].data == Some(SealedPayout(w.core))
  }

  predicate CarriesPayout(tx: Transact) {
    |tx.outputs| > 0 && tx.outputs[|tx.outputs| - 1].data.Some? && |tx.outputs[|tx.outputs| - 1].data.value| == 72
  }

  lemma VerifiableTakeProvedIff(ix: VerifiableTakeIx)
    requires CarriesPayout(ix.transact)
    ensures var tx := ix.transact;
            var h := VerifiableTakePublicInput(tx.privateTxHash, tx.expiry, tx.outputs[|tx.outputs| - 1].data.value);
            && (h == Err(HashingFailed) <==> !IsEncoding(tx.privateTxHash)) && (h.Err? ==> h == Err(HashingFailed))
            && (h.Ok? && VerifiableTakeCircuit.Define(h.value, ix.proof) <==> VerifiableTakeProved(ix))
  {
    var w, tx := ix.proof, ix.transact;
    var ciphertext := tx.outputs[|tx.outputs| - 1].data.value;
    PaysIff(w.core, w.privateTxHash);
    assert IsEncoding(Enc(BytesHash(ciphertext)));
    PublicInputIff(tx.privateTxHash, tx.expiry, Enc(BytesHash(ciphertext)), w.privateTxHash, w.core.order.expiry,
                   BytesHash(ciphertext));
    if Pays(w.core, w.privateTxHash) {
      PublicInputIff(tx.privateTxHash, tx.expiry, Enc(BytesHash(ciphertext)), w.privateTxHash, w.core.order.expiry,
                     BytesHash(w.Ciphertext()));
      assert w.Ciphertext() == SealedPayout(w.core);
      if Enc(BytesHash(ciphertext)) == Enc(BytesHash(w.Ciphertext())) {
        EncInjective(BytesHash(ciphertext), BytesHash(w.Ciphertext()));
      }
    }
  }

  /** What is left to decide once the earlier checks have passed. */
  lemma VerifiableTakeChecked(now: i64, accounts: seq<Account>, ix: VerifiableTakeIx)
    requires IsPayer(accounts) && InWindow(now, ix.transact.expiry) && CarriesPayout(ix.transact)
    requires IsEncoding(ix.transact.privateTxHash)
    ensures VerifiableTakeCall(now, accounts, Some(ix))
            == if VerifiableTakeProved(ix) then CpiTransactSigned(accounts[1..], ORDER_AUTHORITY, ix.transact)
               else Err(ProofVerificationFailed)
  {
    VerifiableTakeProvedIff(ix);
  }

  lemma UncheckedVerifiableTake(now: i64, accounts: seq<Account>, ix: VerifiableTakeIx)
    requires IsPayer(accounts)
    requires !(InWindow(now, ix.transact.expiry) && CarriesPayout(ix.transact) && IsEncoding(ix.transact.privateTxHash))
    ensures VerifiableTakeCall(now, accounts, Some(ix))
            == Err(if !InWindow(now, ix.transact.expiry) then Expired
                   else if !CarriesPayout(ix.transact) then InvalidInstructionData else HashingFailed)
  {
    if CarriesPayout(ix.transact) {
      VerifiableTakeProvedIff(ix);
    }
  }

  /** A proved transaction carries the payout and encodes its hash. */
  lemma VerifiableTakeProvedCarries(ix: VerifiableTakeIx)
    requires VerifiableTakeProved(ix)
    ensures CarriesPayout(ix.transact) && IsEncoding(ix.transact.privateTxHash)
  {
  }

  lemma VerifiableTakeForwarded(now: i64, accounts: seq<Account>, ix: VerifiableTakeIx)
    ensures VerifiableTakeCall(now, accounts, Some(ix)).Ok?
            <==> && IsPayer(accounts) && InWindow(now, ix.transact.expiry) && VerifiableTakeProved(ix)
                 && AuthorityFrom(accounts, 1, ORDER_AUTHORITY)
    ensures VerifiableTakeCall(now, accounts, Some(ix)).Ok? ==>
              CallCarries(VerifiableTakeCall(now, accounts, Some(ix)).value, ix.transact, accounts, 1, ORDER_AUTHORITY)
  {
    if VerifiableTakeProved(ix) {
      VerifiableTakeProvedCarries(ix);
    }
    if IsPayer(accounts) {
      CpiExactly(ix.transact, accounts, 1, ORDER_AUTHORITY);
      if InWindow(now, ix.transact.expiry) && CarriesPayout(ix.transact) && IsEncoding(ix.transact.privateTxHash) {
        VerifiableTakeChecked(now, accounts, ix);
      } else {
        UncheckedVerifiableTake(now, accounts, ix);
      }
    }
  }

  lemma VerifiableTakeRefused(now: i64, accounts: seq<Account>, ix: VerifiableTakeIx)
    ensures var r, tx := VerifiableTakeCall(now, accounts, Some(ix)), ix.transact;
            if !IsPayer(accounts) then r == Err(PayerError(accounts))
            else if !InWindow(now, tx.expiry) then r == Err(Expired)
            else if !CarriesPayout(tx) then r == Err(InvalidInstructionData)
            else if !IsEncoding(tx.privateTxHash) then r == Err(HashingFailed)
            else
            && (r == Err(ProofVerificationFailed) <==> !VerifiableTakeProved(ix))
            && (r == Err(MissingAuthority) <==>
                  VerifiableTakeProved(ix) && !AuthorityFrom(accounts, 1, ORDER_AUTHORITY))
    ensures VerifiableTakeCall(now, accounts, None)
            == Err(if IsPayer(accounts) then InvalidInstructionData else PayerError(accounts))
  {
    if IsPayer(accounts) {
      CpiExactly(ix.transact, accounts, 1, ORDER_AUTHORITY);
      if InWindow(now, ix.transact.expiry) && CarriesPayout(ix.transact) && IsEncoding(ix.transact.privateTxHash) {
        VerifiableTakeChecked(now, accounts, ix);
      } else {
        UncheckedVerifiableTake(now, accounts, ix);
      }
    }
  }

  /* cancel and withdraw */

  /** Why a refund's second account is refused. */
  function OwnerError(accounts: seq<Account>): Error {
    if |accounts| < 2 then NotEnoughAccountKeys else InvalidSigner
  }

  predicate OwnerSigns(accounts: seq<Account>) {
    |accounts| >= 2 && accounts[1].isSigner
  }

  predicate PastWindow(now: i64, end: u64) {
    0 <= now && end < now
  }

  /** The proof of a cancel by `maker`: the order's whole amount goes to the owner hash of its terms, which
      the maker's identity opens. */
  predicate CancelProved(maker: Address, ix: CancelIx) {
    var w, tx := ix.proof, ix.transact;
    && w.order.expiry == Num(ix.orderExpiry) && w.makerOwnerPkField == SolanaIdentity(maker)
    && w.order.makerOwnerHash == Poseidon([SolanaIdentity(maker), w.makerNullifierPk])
    && Locks(w.orderUtxo, w.order)
    && Plain(w.sourceOutput, w.order.makerOwnerHash, w.orderUtxo.asset) && w.sourceOutput.amount == w.orderUtxo.amount
    && w.privateTxHash == PrivateTx([Commitment(w.orderUtxo)], [Commitment(w.sourceOutput)], w.privateTxBlinding)
    && tx.privateTxHash == Enc(w.privateTxHash)
  }

  lemma CancelProvedIff(maker: Address, ix: CancelIx)
    ensures var tx := ix.transact;
            var h := CancelPublicInput(tx.privateTxHash, ix.orderExpiry, SolanaIdentity(maker));
            && (h.Some? <==> IsEncoding(tx.privateTxHash))
            && (h.Some? && CancelCircuit.Define(h.value, ix.proof) <==> CancelProved(maker, ix))
  {
    var w, tx := ix.proof, ix.transact;
    LocksIff(w.orderUtxo, w.order);
    PlainIff(w.sourceOutput, w.order.makerOwnerHash, w.orderUtxo.asset);
    RefundTxHashOf(w.orderUtxo, w.sourceOutput, w.privateTxBlinding);
    assert IsEncoding(Enc(SolanaIdentity(maker)));
    PublicInputIff(tx.privateTxHash, ix.orderExpiry, Enc(SolanaIdentity(maker)), w.privateTxHash, w.order.expiry,
                   w.makerOwnerPkField);
    if Enc(SolanaIdentity(maker)) == Enc(w.makerOwnerPkField) {
      EncInjective(SolanaIdentity(maker), w.makerOwnerPkField);
    }
  }

  lemma CancelForwarded(now: i64, accounts: seq<Account>, ix: CancelIx)
    ensures CancelCall(now, accounts, Some(ix)).Ok?
            <==> && IsPayer(accounts) && OwnerSigns(accounts) && PastWindow(now, ix.orderExpiry)
                 && CancelProved(accounts[1].address, ix) && AuthorityFrom(accounts, 2, ORDER_AUTHORITY)
    ensures CancelCall(now, accounts, Some(ix)).Ok? ==>
              CallCarries(CancelCall(now, accounts, Some(ix)).value, ix.transact, accounts, 2, ORDER_AUTHORITY)
  {
    if IsPayer(accounts) && OwnerSigns(accounts) {
      assert accounts[1..][0] == accounts[1];
      CancelProvedIff(accounts[1].address, ix);
      CpiExactly(ix.transact, accounts, 2, ORDER_AUTHORITY);
    }
  }

  lemma CancelRefused(now: i64, accounts: seq<Account>, ix: CancelIx)
    ensures var r, tx := CancelCall(now, accounts, Some(ix)), ix.transact;
            if !IsPayer(accounts) then r == Err(PayerError(accounts))
            else if !OwnerSigns(accounts) then r == Err(OwnerError(accounts))
            else if !PastWindow(now, ix.orderExpiry) then r == Err(NotYetExpired)
            else if !IsEncoding(tx.privateTxHash) then r == Err(HashingFailed)
            else
            && (r == Err(ProofVerificationFailed) <==> !CancelProved(accounts[1].address, ix))
            && (r == Err(MissingAuthority) <==>
                  CancelProved(accounts[1].address, ix) && !AuthorityFrom(accounts, 2, ORDER_AUTHORITY))
    ensures CancelCall(now, accounts, None)
            == Err(if !IsPayer(accounts) then PayerError(accounts)
                   else if !OwnerSigns(accounts) then OwnerError(accounts) else InvalidInstructionData)
  {
    if IsPayer(accounts) && |accounts| >= 2 {
      assert accounts[1..][0] == accounts[1];
      CancelProvedIff(accounts[1].address, ix);
      CpiExactly(ix.transact, accounts, 2, ORDER_AUTHORITY);
    }
  }

  /* escrow and withdraw */

  /** A nonzero note without ring that commits to the owner hash and the unlock time. */
  predicate LocksEscrow(u: Utxo, terms: EscrowTerms) {
    && u.ringProgram == Num(0) && u.ringDataHash == Num(0) && u.amount != Num(0)
    && u.dataHash == Poseidon([terms.ownerHash, terms.unlock])
  }

  predicate EscrowProved(ix: EscrowIx) {
    var w := ix.proof;
    && LocksEscrow(w.escrowUtxo, w.terms) && Plain(w.change, w.terms.ownerHash, w.escrowUtxo.asset)
    && ix.transact.privateTxHash == Enc(LockTxHash(w.sourceInputHash, w.change, w.escrowUtxo, w.privateTxBlinding))
  }

  lemma EscrowProvedIff(ix: EscrowIx)
    ensures var h := Dec(ix.transact.privateTxHash);
            h.Some? && DefineEscrow(h.value, ix.proof) <==> EscrowProved(ix)
  {
    var w := ix.proof;
    PlainIff(w.change, w.terms.ownerHash, w.escrowUtxo.asset);
    LockTxHashOf(w.sourceInputHash, w.change, w.escrowUtxo, w.privateTxBlinding);
    DecIsEnc(ix.transact.privateTxHash);
    DecEnc(LockTxHash(w.sourceInputHash, w.change, w.escrowUtxo, w.privateTxBlinding));
  }

  lemma EscrowForwarded(accounts: seq<Account>, ix: EscrowIx)
    ensures EscrowCall(accounts, Some(ix)).Ok?
            <==> IsPayer(accounts) && EscrowProved(ix) && AuthorityFrom(accounts, 1, ESCROW_AUTHORITY)
    ensures EscrowCall(accounts, Some(ix)).Ok? ==>
              CallCarries(EscrowCall(accounts, Some(ix)).value, ix.transact, accounts, 1, ESCROW_AUTHORITY)
  {
    EscrowProvedIff(ix);
    if IsPayer(accounts) {
      CpiExactly(ix.transact, accounts, 1, ESCROW_AUTHORITY);
    }
  }

  lemma EscrowRefused(accounts: seq<Account>, ix: EscrowIx)
    ensures var r := EscrowCall(accounts, Some(ix));
            if !IsPayer(accounts) then r == Err(PayerError(accounts)) else
            && (r == Err(ProofVerificationFailed) <==> !EscrowProved(ix))
            && (r == Err(MissingAuthority) <==> EscrowProved(ix) && !AuthorityFrom(accounts, 1, ESCROW_AUTHORITY))
    ensures EscrowCall(accounts, None)
            == Err(if IsPayer(accounts) then InvalidInstructionData else PayerError(accounts))
  {
    EscrowProvedIff(ix);
    if IsPayer(accounts) {
      CpiExactly(ix.transact, accounts, 1, ESCROW_AUTHORITY);
    }
  }

  predicate WithdrawProved(creator: Address, ix: WithdrawIx) {
    var w, tx := ix.proof, ix.transact;
    && w.terms.unlock == Num(ix.unlockTimestamp) && w.ownerPkField == SolanaIdentity(creator)
    && w.terms.ownerHash == Poseidon([SolanaIdentity(creator), w.nullifierPk])
    && LocksEscrow(w.escrowUtxo, w.terms)
    && Plain(w.sourceOutput, w.terms.ownerHash, w.escrowUtxo.asset) && w.sourceOutput.amount == w.escrowUtxo.amount
    && w.privateTxHash == PrivateTx([Commitment(w.escrowUtxo)], [Commitment(w.sourceOutput)], w.privateTxBlinding)
    && tx.privateTxHash == Enc(w.privateTxHash)
  }

  lemma WithdrawProvedIff(creator: Address, ix: WithdrawIx)
    ensures var tx := ix.transact;
            var h := WithdrawPublicInput(tx.privateTxHash, ix.unlockTimestamp, SolanaIdentity(creator));
            && (h.Some? <==> IsEncoding(tx.privateTxHash))
            && (h.Some? && DefineWithdraw(h.value, ix.proof) <==> WithdrawProved(creator, ix))
  {
    var w, tx := ix.proof, ix.transact;
    PlainIff(w.sourceOutput, w.terms.ownerHash, w.escrowUtxo.asset);
    RefundTxHashOf(w.escrowUtxo, w.sourceOutput, w.privateTxBlinding);
    assert IsEncoding(Enc(SolanaIdentity(creator)));
    PublicInputIff(tx.privateTxHash, ix.unlockTimestamp, Enc(SolanaIdentity(creator)), w.privateTxHash, w.terms.unlock,
                   w.ownerPkField);
    if Enc(SolanaIdentity(creator)) == Enc(w.ownerPkField) {
      EncInjective(SolanaIdentity(creator), w.ownerPkField);
    }
  }

  lemma WithdrawForwarded(now: i64, accounts: seq<Account>, ix: WithdrawIx)
    ensures WithdrawCall(now, accounts, Some(ix)).Ok?
            <==> && IsPayer(accounts) && OwnerSigns(accounts) && PastWindow(now, ix.unlockTimestamp)
                 && WithdrawProved(accounts[1].address, ix) && AuthorityFrom(accounts, 2, ESCROW_AUTHORITY)
    ensures WithdrawCall(now, accounts, Some(ix)).Ok? ==>
              CallCarries(WithdrawCall(now, accounts, Some(ix)).value, ix.transact, accounts, 2, ESCROW_AUTHORITY)
  {
    if IsPayer(accounts) && OwnerSigns(accounts) {
      assert accounts[1..][0] == accounts[1];
      WithdrawProvedIff(accounts[1].address, ix);
      CpiExactly(ix.transact, accounts, 2, ESCROW_AUTHORITY);
    }
  }

  lemma WithdrawRefused(now: i64, accounts: seq<Account>, ix: WithdrawIx)
    ensures var r, tx := WithdrawCall(now, accounts, Some(ix)), ix.transact;
            if !IsPayer(accounts) then r == Err(PayerError(accounts))
            else if !OwnerSigns(accounts) then r == Err(OwnerError(accounts))
            else if !PastWindow(now, ix.unlockTimestamp) then r == Err(NotYetUnlocked)
            else if !IsEncoding(tx.privateTxHash) then r == Err(HashingFailed)
            else
            && (r == Err(ProofVerificationFailed) <==> !WithdrawProved(accounts[1].address, ix))
            && (r == Err(MissingAuthority) <==>
                  WithdrawProved(accounts[1].address, ix) && !AuthorityFrom(accounts, 2, ESCROW_AUTHORITY))
    ensures WithdrawCall(now, accounts, None)
            == Err(if !IsPayer(accounts) then PayerError(accounts)
                   else if !OwnerSigns(accounts) then OwnerError(accounts) else InvalidInstructionData)
  {
    if IsPayer(accounts) && |accounts| >= 2 {
      assert accounts[1..][0] == accounts[1];
      WithdrawProvedIff(accounts[1].address, ix);
      CpiExactly(ix.transact, accounts, 2, ESCROW_AUTHORITY);
    }
  }
}
