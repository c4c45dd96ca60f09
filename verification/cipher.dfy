/** The keystream cipher shared by the encrypted-take circuit and the SDK. */
module Cipher {
  import opened Ideal

  const MERGE_INFO := "TSPP/merge"
  const DESTINATION_CIPHERTEXT_LEN: nat := 72

  /** XOR with one keystream byte. */
  function Toggle(b: Byte, p: Pad): Byte {
    if p in b.pads then b.(pads := b.pads - {p}) else b.(pads := b.pads + {p})
  }

  lemma ToggleInvolution(b: Byte, p: Pad)
    ensures Toggle(Toggle(b, p), p) == b
  {
    assert p in b.pads ==> b.pads - {p} + {p} == b.pads;
    assert p !in b.pads ==> b.pads + {p} - {p} == b.pads;
  }

  /** The whole buffer XORed with the keystream of `key`. */
  function ApplyKeystream(key: Fe, text: seq<Byte>): (r: seq<Byte>)
    ensures |r| == |text|
  {
    seq(|text|, i requires 0 <= i < |text| => Toggle(text[i], Pad(key, MERGE_INFO, i)))
  }

  /** Encryption and decryption are the same operation. */
  lemma KeystreamInvolution(key: Fe, text: seq<Byte>)
    ensures ApplyKeystream(key, ApplyKeystream(key, text)) == text
  {
    forall i | 0 <= i < |text|
      ensures ApplyKeystream(key, ApplyKeystream(key, text))[i] == text[i]
    {
      ToggleInvolution(text[i], Pad(key, MERGE_INFO, i));
    }
  }

  /** Each byte is XORed with the keystream byte of its own position, of the label "TSPP/merge", and with no
      other; so no byte is left as it was. */
  lemma KeystreamAt(key: Fe, text: seq<Byte>, i: nat)
    requires i < |text|
    ensures var byte := ApplyKeystream(key, text)[i];
            && byte.base == text[i].base && byte != text[i]
            && forall p: Pad :: (p in byte.pads <==> p in text[i].pads) <==> p != Pad(key, "TSPP/merge", i)
  {
    var own := Pad(key, "TSPP/merge", i);
    var byte := ApplyKeystream(key, text)[i];
    assert own in byte.pads <==> own !in text[i].pads;
  }

  /** Different keys give different texts. */
  lemma KeystreamInjective(key: Fe, other: Fe, text: seq<Byte>)
    requires text != []
    ensures ApplyKeystream(key, text) == ApplyKeystream(other, text) <==> key == other
  {
    KeystreamAt(key, text, 0);
    KeystreamAt(other, text, 0);
    if key != other {
      var own := Pad(key, "TSPP/merge", 0);
      assert own in ApplyKeystream(key, text)[0].pads <==> own !in text[0].pads;
      assert own in ApplyKeystream(other, text)[0].pads <==> own in text[0].pads;
    }
  }

  /** symmetric_apply: XORs the buffer in place. */
  method SymmetricApply(key: Fe, buffer: array<Byte>)
    modifies buffer
    ensures buffer[..] == ApplyKeystream(key, old(buffer[..]))
  {
    ghost var text := buffer[..];
    for i := 0 to buffer.Length
      invariant forall j :: 0 <= j < i ==> buffer[j] == ApplyKeystream(key, text)[j]
      invariant forall j :: i <= j < buffer.Length ==> buffer[j] == text[j]
    {
      buffer[i] := Toggle(buffer[i], Pad(key, MERGE_INFO, i));
    }
  }
}
