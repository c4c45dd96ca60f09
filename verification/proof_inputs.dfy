/** What the proof-input builders of both SDKs return, and the hash of their public values. */
module ProofInputs {
  import opened Ideal
  import opened Notes

  // A witness with the public input it is proved against.
  datatype Inputs<+W> = Inputs(publicInputHash: Fe, proof: W)

  function FromOption<T>(o: Option<T>): Result<T, SdkError> {
    match o
    case Some(v) => Ok(v)
    case None => Err(SdkError("hashing failed"))
  }

  /** Hashing the three public values as byte strings is hashing them as field elements. */
  lemma PublicInputOfEncodings(privateTxHash: Fe, expiry: u64, third: Fe)
    ensures Hashv([Enc(privateTxHash), U64RightAligned(expiry), Enc(third)])
            == Some(Poseidon([privateTxHash, Num(expiry), third]))
  {
    HashvOfEncodings([privateTxHash, Num(expiry), third], [Enc(privateTxHash), U64RightAligned(expiry), Enc(third)]);
  }
}
