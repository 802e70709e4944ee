/** The AEAD primitive as an abstract pair of functions.

    Nothing is assumed about ChaCha20-Poly1305 beyond what section 2.8 of RFC 8439 promises
    to its users: sealing appends a 16-byte tag, and opening with the same key, nonce and
    associated data gives the message back.  Theorems quantify over every pair that keeps
    these promises. */
module Crypto {
  import opened Types
  import opened LittleEndian

  /** Arguments are the key, the 12-byte nonce, the associated data and the text. */
  datatype Aead = Aead(
    seal: (Key, bytes, bytes, bytes) -> bytes,
    open: (Key, bytes, bytes, bytes) -> Option<bytes>)

  ghost predicate Lawful(a: Aead) {
    && (forall k: Key, n: bytes, ad: bytes, m: bytes ::
          && |a.seal(k, n, ad, m)| == |m| + MAC_BYTES
          && a.open(k, n, ad, a.seal(k, n, ad, m)) == Some(m))
    && (forall k: Key, n: bytes, ad: bytes, c: bytes ::
          a.open(k, n, ad, c).Some? ==> |c| == |a.open(k, n, ad, c).value| + MAC_BYTES)
  }

  /** The 96-bit nonce made from a 64-bit sequence number. */
  function Nonce(sequence: uint64): (n: bytes)
    ensures |n| == 12
  {
    Encode(4, 0) + Encode(8, sequence)
  }

  /** A nonce is four zero bytes and the sequence number. */
  lemma NonceLayout(sequence: uint64)
    ensures Nonce(sequence)[..4] == [0, 0, 0, 0] && Decode(Nonce(sequence)[4..]) == sequence
  {
    PowValues();
    DecodeEncode(8, sequence);
    assert Nonce(sequence)[4..] == Encode(8, sequence);
    assert Encode(4, 0) == [0] + Encode(3, 0) && Encode(3, 0) == [0] + Encode(2, 0) && Encode(2, 0) == [0] + Encode(1, 0);
  }

  /** A pair that keeps the promises exists, so theorems about lawful pairs are not vacuous. */
  const TAG_ONLY: Aead := Aead(
    (k, n, ad, m) => m + ZERO_MAC,
    (k, n, ad, c) => if |c| >= 16 && c[|c| - 16..] == ZERO_MAC then Some(c[..|c| - 16]) else None)

  lemma TagOnlyIsLawful()
    ensures Lawful(TAG_ONLY)
  {
    forall k: Key, n: bytes, ad: bytes, m: bytes
      ensures TAG_ONLY.open(k, n, ad, TAG_ONLY.seal(k, n, ad, m)) == Some(m)
    {
      var c := m + ZERO_MAC;
      assert c[|c| - 16..] == ZERO_MAC && c[..|c| - 16] == m;
    }
  }

  /** Decryption in place: the plain text overwrites the start of the buffer, the tag stays. */
  function OpenInPlace(a: Aead, key: Key, nonce: bytes, ad: bytes, buffer: bytes): (r: Option<bytes>)
    requires |buffer| >= MAC_BYTES
  {
    match a.open(key, nonce, ad, buffer)
    case None => None
    case Some(m) => Some(m + buffer[|buffer| - MAC_BYTES..])
  }

  lemma OpenInPlaceOfSeal(a: Aead, key: Key, nonce: bytes, ad: bytes, m: bytes)
    requires Lawful(a)
    ensures var c := a.seal(key, nonce, ad, m);
            && |c| == |m| + MAC_BYTES
            && OpenInPlace(a, key, nonce, ad, c) == Some(m + c[|m|..])
  {
  }
}
