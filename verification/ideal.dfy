/** Ideal field elements, bytes and hashes.

    Every hash of the protocol is a constructor of a free term, so two hashes are equal
    exactly when their preimages are, and no hash is the literal zero.  A byte is either a
    concrete value or one byte of the canonical encoding of a hash, masked by a finite set
    of keystream bytes: masking twice with the same keystream byte is the identity, which is
    all that is used of a stream cipher.
 */
module Ideal {
  // The BN254 scalar field.
  const MODULUS: nat := 21888242871839275222246405745257275088548364400416034343698204186575808495617

  type Scalar = n: nat | n < MODULUS
  type u8 = n: nat | n < 0x100
  type u16 = n: nat | n < 0x1_0000
  type u64 = n: nat | n < 0x1_0000_0000_0000_0000
  type i64 = n: int | -0x8000_0000_0000_0000 <= n < 0x8000_0000_0000_0000

  const U64_MAX: u64 := 0xFFFF_FFFF_FFFF_FFFF
  const LAST_TIME: i64 := 0x7FFF_FFFF_FFFF_FFFF

  datatype Option<+T> = None | Some(value: T)
  datatype Result<+T, +E> = Ok(value: T) | Err(error: E)

  datatype Fe =
    | Num(n: Scalar)
    | Poseidon(args: seq<Fe>)
    | BytesHash(bytes: seq<Byte>)                                  // hash_bytes
    | SolanaIdentity(solanaKey: seq<Byte>)                         // solana_owner_identity, tagged
    | P256Identity(p256Key: seq<Byte>)                             // the owner identity of a non-Solana key
    | NullifierKey(secret: Fe)                                     // nullifier pubkey of a secret
    | Nullifier(commitment: Fe, blinding: Fe, nullifierSecret: Fe)
    | PaddingNullifier(padding: Fe)                                // what a dummy input publishes
    | Commitment(utxo: Utxo)
    | PrivateTx(inputs: seq<Fe>, outputs: seq<Fe>, txBlinding: Fe)
    | PrivateTxBlinding(firstNullifier: Fe, seed: Fe)              // derive_private_tx_blinding
    | OutputBlindingSeed(firstNullifier: Fe, seed: Fe)             // derive_output_blinding_seed
    | OutputBlinding(firstNullifier: Fe, seed: Fe, index: nat)     // derive_transact_output_blinding

  // The fields a utxo commitment covers.
  datatype Utxo = Utxo(
    owner: Fe, treeId: Fe, asset: Fe, amount: Fe, blinding: Fe,
    dataHash: Fe, ringProgram: Fe, ringDataHash: Fe)

  datatype Base = Raw(value: u8) | Digit(fe: Fe, index: nat)
  datatype Pad = Pad(key: Fe, info: string, index: nat)
  datatype Byte = Byte(base: Base, pads: set<Pad>)

  const ZERO: Fe := Num(0)
  const ZERO_BYTE: Byte := Byte(Raw(0), {})

  type Bytes32 = b: seq<Byte> | |b| == 32 witness seq(32, _ => ZERO_BYTE)

  predicate IsU64(f: Fe) {
    f.Num? && f.n <= U64_MAX
  }

  /* Positional notation. */

  function Pow256(k: nat): (p: nat)
    ensures p > 0
  {
    if k == 0 then 1 else 0x100 * Pow256(k - 1)
  }

  lemma Pow256Values()
    ensures Pow256(8) == 0x1_0000_0000_0000_0000
    ensures MODULUS < Pow256(32)
  {
    assert Pow256(4) == 0x1_0000_0000;
    assert Pow256(8) == 0x1_0000_0000 * Pow256(4);
    assert Pow256(12) == 0x1_0000_0000 * Pow256(8);
    assert Pow256(16) == 0x1_0000_0000 * Pow256(12);
    assert Pow256(20) == 0x1_0000_0000 * Pow256(16);
    assert Pow256(24) == 0x1_0000_0000 * Pow256(20);
    assert Pow256(28) == 0x1_0000_0000 * Pow256(24);
    assert Pow256(32) == 0x1_0000_0000 * Pow256(28);
  }

  /** The `k` low base-256 digits of `n`, most significant first. */
  function BigEndian(n: nat, k: nat): (s: seq<u8>)
    ensures |s| == k
  {
    if k == 0 then [] else BigEndian(n / 0x100, k - 1) + [n % 0x100]
  }

  function FromBigEndian(s: seq<u8>): nat {
    if s == [] then 0 else FromBigEndian(s[..|s| - 1]) * 0x100 + s[|s| - 1]
  }

  lemma {:induction false} BigEndianRoundTrip(n: nat, k: nat)
    requires n < Pow256(k)
    ensures FromBigEndian(BigEndian(n, k)) == n
  {
    if k != 0 {
      BigEndianRoundTrip(n / 0x100, k - 1);
      assert BigEndian(n, k)[..k - 1] == BigEndian(n / 0x100, k - 1);
    }
  }

  lemma {:induction false} FromBigEndianRoundTrip(s: seq<u8>)
    ensures FromBigEndian(s) < Pow256(|s|)
    ensures BigEndian(FromBigEndian(s), |s|) == s
  {
    if s != [] {
      FromBigEndianRoundTrip(s[..|s| - 1]);
    }
  }

  /** The digit of weight 256 to the power `i`. */
  function DigitOf(n: nat, i: nat): u8 {
    if i == 0 then n % 0x100 else DigitOf(n / 0x100, i - 1)
  }

  /** It stands `i` places from the end. */
  lemma {:induction false} BigEndianDigit(n: nat, k: nat, i: nat)
    requires i < k
    ensures BigEndian(n, k)[k - 1 - i] == DigitOf(n, i)
  {
    if i > 0 {
      BigEndianDigit(n / 0x100, k - 1, i - 1);
    }
  }

  /** Leading zeros are all that separates a wide encoding from a narrow one that fits. */
  lemma {:induction false} BigEndianWiden(n: nat, narrow: nat, wide: nat)
    requires narrow <= wide && n < Pow256(narrow)
    ensures BigEndian(n, wide) == seq(wide - narrow, _ => 0) + BigEndian(n, narrow)
    decreases wide
  {
    if narrow != 0 {
      BigEndianWiden(n / 0x100, narrow - 1, wide - 1);
    } else if wide != 0 {
      BigEndianWiden(0, 0, wide - 1);
    }
  }

  /* Bytes. */

  function RawBytes(s: seq<u8>): (b: seq<Byte>)
    ensures |b| == |s|
    ensures forall i :: 0 <= i < |s| ==> b[i] == Byte(Raw(s[i]), {})
  {
    seq(|s|, i requires 0 <= i < |s| => Byte(Raw(s[i]), {}))
  }

  predicate AllRaw(b: seq<Byte>) {
    forall i :: 0 <= i < |b| ==> b[i].base.Raw? && b[i].pads == {}
  }

  function RawValues(b: seq<Byte>): (s: seq<u8>)
    requires AllRaw(b)
    ensures RawBytes(s) == b
  {
    seq(|b|, i requires 0 <= i < |b| => b[i].base.value)
  }

  lemma RawValuesOfRawBytes(s: seq<u8>)
    ensures AllRaw(RawBytes(s)) && RawValues(RawBytes(s)) == s
  {
  }

  /** u64::to_be_bytes and, on concrete bytes, u64::from_be_bytes. */
  function U64Bytes(v: u64): (b: seq<Byte>)
    ensures |b| == 8
  {
    RawBytes(BigEndian(v, 8))
  }

  function ReadU64(b: seq<Byte>): (r: Option<u64>)
    requires |b| == 8
    ensures r.Some? ==> U64Bytes(r.value) == b
  {
    if AllRaw(b) then
      var s := RawValues(b);
      FromBigEndianRoundTrip(s);
      Pow256Values();
      Some(FromBigEndian(s))
    else
      None
  }

  lemma ReadU64Bytes(v: u64)
    ensures ReadU64(U64Bytes(v)) == Some(v)
  {
    RawValuesOfRawBytes(BigEndian(v, 8));
    Pow256Values();
    BigEndianRoundTrip(v, 8);
  }

  /** The canonical 32-byte big-endian encoding of a field element. */
  function Enc(f: Fe): Bytes32 {
    match f
    case Num(n) => RawBytes(BigEndian(n, 32))
    case _ => seq(32, i requires 0 <= i < 32 => Byte(Digit(f, i), {}))
  }

  /** The field element a 32-byte string canonically encodes, if it encodes one. */
  function Dec(b: Bytes32): Option<Fe> {
    if AllRaw(b) then
      var v := FromBigEndian(RawValues(b));
      if v < MODULUS then Some(Num(v)) else None
    else if b[0].base.Digit? && !b[0].base.fe.Num? && b == Enc(b[0].base.fe) then
      Some(b[0].base.fe)
    else
      None
  }

  lemma DecEnc(f: Fe)
    ensures Dec(Enc(f)) == Some(f)
  {
    match f
    case Num(n) =>
      Pow256Values();
      RawValuesOfRawBytes(BigEndian(n, 32));
      BigEndianRoundTrip(n, 32);
    case _ =>
      assert Enc(f)[0].base == Digit(f, 0);
  }

  lemma DecIsEnc(b: Bytes32)
    ensures Dec(b).Some? ==> b == Enc(Dec(b).value)
  {
    if AllRaw(b) {
      FromBigEndianRoundTrip(RawValues(b));
    }
  }

  /** A 32-byte big-endian number is the canonical encoding of a field element exactly when it is below the
      scalar modulus of BN254. */
  lemma CanonicalIff(n: nat)
    requires n < Pow256(32)
    ensures (exists f: Fe :: RawBytes(BigEndian(n, 32)) == Enc(f))
            <==> n < 21888242871839275222246405745257275088548364400416034343698204186575808495617
  {
    var b: Bytes32 := RawBytes(BigEndian(n, 32));
    RawValuesOfRawBytes(BigEndian(n, 32));
    BigEndianRoundTrip(n, 32);
    DecIsEnc(b);
    if f: Fe :| b == Enc(f) {
      DecEnc(f);
    }
  }

  lemma EncInjective(f: Fe, g: Fe)
    requires Enc(f) == Enc(g)
    ensures f == g
  {
    DecEnc(f);
    DecEnc(g);
  }

  /** A u64 as the low eight bytes of a 32-byte string. */
  function U64RightAligned(v: u64): (b: Bytes32)
    ensures b == Enc(Num(v))
  {
    Pow256Values();
    BigEndianWiden(v, 8, 32);
    seq(24, _ => ZERO_BYTE) + U64Bytes(v)
  }

  /** u64_right_align: fills the tail of a zeroed buffer. */
  method U64RightAlign(value: u64) returns (bytes: Bytes32)
    ensures bytes == Enc(Num(value))
  {
    var buffer := new Byte[32](_ => ZERO_BYTE);
    CopyFrom(buffer, 24, U64Bytes(value));
    assert buffer[..] == U64RightAligned(value);
    bytes := buffer[..];
  }

  /** copy_from_slice into `buffer[at..at + |source|]`. */
  method CopyFrom(buffer: array<Byte>, at: nat, source: seq<Byte>)
    requires at + |source| <= buffer.Length
    modifies buffer
    ensures buffer[..] == old(buffer[..at]) + source + old(buffer[at + |source|..])
  {
    for i := 0 to |source|
      invariant buffer[..at] == old(buffer[..at])
      invariant buffer[at..at + i] == source[..i]
      invariant buffer[at + i..] == old(buffer[at + i..])
    {
      buffer[at + i] := source[i];
    }
  }

  /* Hashing 32-byte strings: Poseidon::hashv fails on a string that is no field element. */

  function DecodeAll(inputs: seq<Bytes32>): (r: Option<seq<Fe>>)
    ensures r.Some? ==> |r.value| == |inputs| && forall i :: 0 <= i < |inputs| ==> inputs[i] == Enc(r.value[i])
  {
    if inputs == [] then Some([])
    else
      DecIsEnc(inputs[0]);
      match (Dec(inputs[0]), DecodeAll(inputs[1..]))
      case (Some(f), Some(rest)) => Some([f] + rest)
      case _ => None
  }

  function Hashv(inputs: seq<Bytes32>): (r: Option<Fe>)
    ensures r.Some? ==> r.value.Poseidon? && |r.value.args| == |inputs| &&
                        forall i :: 0 <= i < |inputs| ==> inputs[i] == Enc(r.value.args[i])
  {
    match DecodeAll(inputs)
    case Some(fs) => Some(Poseidon(fs))
    case None => None
  }

  /** Hashing the encodings of field elements is Poseidon on the elements. */
  lemma {:induction false} HashvOfEncodings(fs: seq<Fe>, inputs: seq<Bytes32>)
    requires |inputs| == |fs| && forall i :: 0 <= i < |fs| ==> inputs[i] == Enc(fs[i])
    ensures DecodeAll(inputs) == Some(fs) && Hashv(inputs) == Some(Poseidon(fs))
  {
    if fs != [] {
      DecEnc(fs[0]);
      HashvOfEncodings(fs[1..], inputs[1..]);
      assert [fs[0]] + fs[1..] == fs;
    }
  }

  /* private_tx_hash folds only its nonzero entries, in order. */

  function NonZero(hashes: seq<Fe>): seq<Fe> {
    if hashes == [] then []
    else if hashes[0] == ZERO then NonZero(hashes[1..])
    else [hashes[0]] + NonZero(hashes[1..])
  }

  function PrivateTxHash(inputs: seq<Fe>, outputs: seq<Fe>, blinding: Fe): Fe {
    PrivateTx(NonZero(inputs), NonZero(outputs), blinding)
  }

  lemma {:induction false} NonZeroConcat(a: seq<Fe>, b: seq<Fe>)
    ensures NonZero(a + b) == NonZero(a) + NonZero(b)
  {
    if a == [] {
      assert a + b == b;
    } else {
      NonZeroConcat(a[1..], b);
      assert (a + b)[1..] == a[1..] + b;
    }
  }

  lemma NonZeroSingle(a: Fe)
    ensures NonZero([a]) == if a == ZERO then [] else [a]
  {
    assert [a][1..] == [];
  }

  lemma NonZeroPair(a: Fe, b: Fe)
    ensures NonZero([a, b]) == (if a == ZERO then [] else [a]) + (if b == ZERO then [] else [b])
  {
    NonZeroSingle(a);
    NonZeroSingle(b);
    NonZeroConcat([a], [b]);
    assert [a, b] == [a] + [b];
  }

  lemma {:induction false} NonZeroMembers(hashes: seq<Fe>, h: Fe)
    ensures h in NonZero(hashes) <==> h in hashes && h != ZERO
  {
    if hashes != [] {
      NonZeroMembers(hashes[1..], h);
    }
  }
}
