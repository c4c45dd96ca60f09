/** The order terms as every swap circuit sees them. */
module OrderTermsCircuit {
  import opened Ideal

  const TAKE_MODE_DERIVED: u64 := 0
  const TAKE_MODE_VERIFIABLE: u64 := 1
  const TAKE_ENC_KDF_DOMAIN: u64 := 0x5357_4150_5441_4b45

  datatype OrderTerms = OrderTerms(
    destinationAsset: Fe, destinationAmount: Fe, makerOwnerHash: Fe, makerViewingPk: seq<Byte>,
    expiry: Fe, takerPkFe: Fe, takeMode: Fe)
  {
    predicate Check() {
      && destinationAmount != ZERO
      && IsU64(destinationAmount)
      && (takeMode == Num(0) || takeMode == Num(1))
    }

    function MakerAddressFE(): Fe {
      Poseidon([makerOwnerHash, BytesHash(makerViewingPk)])
    }

    function DataHash(): Fe {
      Poseidon([destinationAsset, destinationAmount, MakerAddressFE(), expiry, takerPkFe, takeMode])
    }
  }

  /** The data hash fixes every term, the maker's owner hash and viewing key included. */
  lemma DataHashInjective(a: OrderTerms, b: OrderTerms)
    requires a.DataHash() == b.DataHash()
    ensures a == b
  {
    var x, y := a.DataHash().args, b.DataHash().args;
    assert x[0] == y[0] && x[1] == y[1] && x[2] == y[2] && x[3] == y[3] && x[4] == y[4] && x[5] == y[5];
    assert x[2].args[0] == y[2].args[0] && x[2].args[1] == y[2].args[1];
  }

  /** AssertDefaultRing. */
  predicate DefaultRing(u: Utxo) {
    u.ringProgram == ZERO && u.ringDataHash == ZERO
  }

  /** The order note check every swap circuit starts from. */
  predicate IsOrderUtxo(order: OrderTerms, u: Utxo) {
    DefaultRing(u) && u.dataHash == order.DataHash() && u.amount != ZERO
  }

  /** A plain note of `asset` owned by `owner`. */
  predicate IsPlainUtxo(u: Utxo, owner: Fe, asset: Fe) {
    DefaultRing(u) && u.dataHash == ZERO && u.asset == asset && u.owner == owner
  }
}

module MakeCircuit {
  import opened Ideal
  import opened OrderTermsCircuit

  datatype Witness = Witness(
    order: OrderTerms, orderUtxo: Utxo, change: Utxo, sourceInputHash: Fe, privateTxBlinding: Fe)

  predicate Define(privateTxHash: Fe, w: Witness) {
    && w.order.Check()
    && IsOrderUtxo(w.order, w.orderUtxo)
    && IsPlainUtxo(w.change, w.order.makerOwnerHash, w.orderUtxo.asset)
    && privateTxHash == PrivateTxHash([w.sourceInputHash, ZERO],
                                      [Commitment(w.change), Commitment(w.orderUtxo)],
                                      w.privateTxBlinding)
  }
}

module TakeCircuit {
  import opened Ideal
  import opened OrderTermsCircuit

  const BLINDING_SEED_DOMAIN: Scalar := 0x5357_5458

  datatype Core = Core(
    order: OrderTerms, orderUtxo: Utxo, takerIn: Utxo, sourceOutput: Utxo, destinationOutput: Utxo,
    privateTxBlinding: Fe)
  {
    predicate Check(privateTxHash: Fe) {
      && order.Check()
      && IsOrderUtxo(order, orderUtxo)
      && IsPlainUtxo(takerIn, takerIn.owner, order.destinationAsset)
      && takerIn.amount == order.destinationAmount
      && IsPlainUtxo(sourceOutput, takerIn.owner, orderUtxo.asset)
      && sourceOutput.amount == orderUtxo.amount
      && IsPlainUtxo(destinationOutput, order.makerOwnerHash, order.destinationAsset)
      && destinationOutput.amount == order.destinationAmount
      && privateTxHash == PrivateTxHash([Commitment(orderUtxo), Commitment(takerIn)],
                                        [Commitment(sourceOutput), Commitment(destinationOutput)],
                                        privateTxBlinding)
    }
  }

  datatype Witness = Witness(privateTxHash: Fe, firstNullifier: Fe, core: Core)

  function BlindingSeed(orderBlinding: Fe): Fe {
    Poseidon([Num(BLINDING_SEED_DOMAIN), orderBlinding])
  }

  /** AssertTransactionBlindings, as the three equalities the SDK also checks. */
  predicate TransactionBlindings(firstNullifier: Fe, blindingSeed: Fe, privateTxBlinding: Fe, output0: Fe,
                                 output1: Fe) {
    var seed := OutputBlindingSeed(firstNullifier, blindingSeed);
    && privateTxBlinding == PrivateTxBlinding(firstNullifier, blindingSeed)
    && output0 == OutputBlinding(firstNullifier, seed, 0)
    && output1 == OutputBlinding(firstNullifier, seed, 1)
  }

  predicate Define(publicInputHash: Fe, w: Witness) {
    && w.core.order.takeMode == Num(TAKE_MODE_DERIVED)
    && TransactionBlindings(w.firstNullifier, BlindingSeed(w.core.orderUtxo.blinding), w.core.privateTxBlinding,
                            w.core.sourceOutput.blinding, w.core.destinationOutput.blinding)
    && w.core.Check(w.privateTxHash)
    && publicInputHash == Poseidon([w.privateTxHash, w.core.order.expiry, w.firstNullifier])
  }
}

module VerifiableTakeCircuit {
  import opened Ideal
  import opened OrderTermsCircuit
  import opened Cipher
  import TakeCircuit

  datatype Witness = Witness(privateTxHash: Fe, core: TakeCircuit.Core, takerNullifierPk: Fe)
  {
    /** checkVerifiableEncryption: the ciphertext the proof commits to. */
    function Ciphertext(): seq<Byte>
      requires IsU64(core.order.destinationAmount)
    {
      var sharedSecret := Poseidon([core.orderUtxo.blinding, Num(TAKE_ENC_KDF_DOMAIN)]);
      ApplyKeystream(sharedSecret,
                     U64Bytes(core.order.destinationAmount.n) + Enc(core.order.destinationAsset)
                     + Enc(core.destinationOutput.blinding))
    }
  }

  /** The circuit lays the three fields out in a 72-cell buffer and encrypts it. */
  method CheckVerifiableEncryption(w: Witness) returns (ciphertextHash: Fe)
    requires IsU64(w.core.order.destinationAmount)
    ensures ciphertextHash == BytesHash(w.Ciphertext())
  {
    var amount, asset := U64Bytes(w.core.order.destinationAmount.n), Enc(w.core.order.destinationAsset);
    var outputBlinding := Enc(w.core.destinationOutput.blinding);
    var text := new Byte[DESTINATION_CIPHERTEXT_LEN](_ => ZERO_BYTE);
    CopyFrom(text, 0, amount);
    CopyFrom(text, 8, asset);
    CopyFrom(text, 40, outputBlinding);
    assert text[..] == amount + asset + outputBlinding;
    SymmetricApply(Poseidon([w.core.orderUtxo.blinding, Num(TAKE_ENC_KDF_DOMAIN)]), text);
    ciphertextHash := BytesHash(text[..]);
  }

  predicate Define(publicInputHash: Fe, w: Witness) {
    && w.core.order.takeMode == Num(TAKE_MODE_VERIFIABLE)
    && w.core.takerIn.owner == Poseidon([w.core.order.takerPkFe, w.takerNullifierPk])
    && w.core.Check(w.privateTxHash)
    && publicInputHash == Poseidon([w.privateTxHash, w.core.order.expiry, BytesHash(w.Ciphertext())])
  }
}

module CancelCircuit {
  import opened Ideal
  import opened OrderTermsCircuit

  datatype Witness = Witness(
    privateTxHash: Fe, order: OrderTerms, orderUtxo: Utxo, sourceOutput: Utxo,
    makerOwnerPkField: Fe, makerNullifierPk: Fe, privateTxBlinding: Fe)

  predicate Define(publicInputHash: Fe, w: Witness) {
    && IsOrderUtxo(w.order, w.orderUtxo)
    && IsPlainUtxo(w.sourceOutput, w.order.makerOwnerHash, w.orderUtxo.asset)
    && w.sourceOutput.amount == w.orderUtxo.amount
    && Poseidon([w.makerOwnerPkField, w.makerNullifierPk]) == w.order.makerOwnerHash
    && w.privateTxHash == PrivateTxHash([Commitment(w.orderUtxo)], [Commitment(w.sourceOutput)], w.privateTxBlinding)
    && publicInputHash == Poseidon([w.privateTxHash, w.order.expiry, w.makerOwnerPkField])
  }
}
