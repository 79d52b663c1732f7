/** The cryptographic primitives behind Noise.kt, as parameters with the laws the protocol relies on. */
module Crypto {
  import opened Prelude

  const HASH_LEN := 32
  const KEY_LEN := 32
  const TAG_LEN := 16
  const BLOCK_LEN := 64

  /**
   * `agree(private, public)` is X25519, `None` standing for the refused all-zero output.
   * `seal` and `open` take key, 12-byte nonce, associated data and text.
   */
  datatype Primitives = Primitives(
    blake2s: Bytes -> Bytes,
    publicKey: Bytes -> Bytes,
    agree: (Bytes, Bytes) -> Option<Bytes>,
    seal: (Bytes, Bytes, Bytes, Bytes) -> Bytes,
    open: (Bytes, Bytes, Bytes, Bytes) -> Option<Bytes>
  ) {
    /** Fixed output lengths, DH commutes on honest keys, opening inverts sealing. */
    ghost predicate Lawful() {
      && (forall x: Bytes :: |blake2s(x)| == HASH_LEN)
      && (forall x: Bytes :: |publicKey(x)| == KEY_LEN)
      && (forall a: Bytes, b: Bytes :: |a| == KEY_LEN && |b| == KEY_LEN ==>
            agree(a, publicKey(b)).Some? && agree(a, publicKey(b)) == agree(b, publicKey(a)))
      && (forall k: Bytes, n: Bytes, ad: Bytes, pt: Bytes :: |seal(k, n, ad, pt)| == |pt| + TAG_LEN)
      && (forall k: Bytes, n: Bytes, ad: Bytes, pt: Bytes :: open(k, n, ad, seal(k, n, ad, pt)) == Some(pt))
      && (forall k: Bytes, n: Bytes, ad: Bytes, ct: Bytes ::
            open(k, n, ad, ct).Some? ==> |ct| == |open(k, n, ad, ct).value| + TAG_LEN)
    }
  }

  lemma HashLaw(p: Primitives, x: Bytes)
    requires p.Lawful()
    ensures |p.blake2s(x)| == HASH_LEN
  {
  }

  /** The AEAD laws at one call: the tag's 16 bytes, and opening what was sealed. */
  lemma SealLaw(p: Primitives, key: Bytes, nonce: Bytes, ad: Bytes, plaintext: Bytes)
    requires p.Lawful()
    ensures |p.seal(key, nonce, ad, plaintext)| == |plaintext| + TAG_LEN
    ensures p.open(key, nonce, ad, p.seal(key, nonce, ad, plaintext)) == Some(plaintext)
  {
  }

  function Pow2(bits: nat): nat {
    if bits == 0 then 1 else 2 * Pow2(bits - 1)
  }

  /** Exclusive or of the low bits, one by one. */
  function XorBits(a: nat, b: nat, bits: nat): (r: nat)
    ensures r < Pow2(bits)
  {
    if bits == 0 then 0 else (a + b) % 2 + 2 * XorBits(a / 2, b / 2, bits - 1)
  }

  lemma ByteHasEightBits()
    ensures Pow2(8) == 256
  {
    assert Pow2(4) == 16;
  }

  function XorByte(a: byte, b: byte): byte {
    ByteHasEightBits();
    XorBits(a, b, 8)
  }

  lemma LowBit(a: nat, b: nat, x: nat)
    ensures var r := (a + b) % 2 + 2 * x;
            r / 2 == x && (a + r) % 2 == b % 2
  {
  }

  lemma XorBitsStep(a: nat, b: nat, bits: nat)
    requires bits > 0
    ensures XorBits(a, b, bits) == (a + b) % 2 + 2 * XorBits(a / 2, b / 2, bits - 1)
  {
  }

  lemma HalfFits(a: nat, bits: nat)
    requires bits > 0 && a < Pow2(bits)
    ensures a / 2 < Pow2(bits - 1)
  {
  }

  lemma {:induction false} XorBitsTwice(a: nat, b: nat, bits: nat)
    requires a < Pow2(bits) && b < Pow2(bits)
    ensures XorBits(a, XorBits(a, b, bits), bits) == b
  {
    if bits > 0 {
      hide XorBits, Pow2;
      HalfFits(a, bits);
      HalfFits(b, bits);
      XorBitsTwice(a / 2, b / 2, bits - 1);
      XorBitsStep(a, b, bits);
      XorBitsStep(a, XorBits(a, b, bits), bits);
      LowBit(a, b, XorBits(a / 2, b / 2, bits - 1));
    }
  }

  lemma {:induction false} XorBitsZero(a: nat, bits: nat)
    requires a < Pow2(bits)
    ensures XorBits(a, 0, bits) == a
  {
    if bits > 0 {
      hide XorBits, Pow2;
      HalfFits(a, bits);
      XorBitsZero(a / 2, bits - 1);
      XorBitsStep(a, 0, bits);
    }
  }

  /** Exclusive or undoes itself, and zero changes nothing. */
  lemma XorTwice(pad: byte, b: byte)
    ensures XorByte(pad, XorByte(pad, b)) == b && XorByte(pad, 0) == pad
  {
    hide XorBits;
    ByteHasEightBits();
    XorBitsTwice(pad, b, 8);
    XorBitsZero(pad, 8);
  }

  function XorAll(pad: byte, key: Bytes): (r: Bytes)
    ensures |r| == |key|
  {
    seq(|key|, i requires 0 <= i < |key| => XorByte(pad, key[i]))
  }

  /** HMAC-BLAKE2s of RFC 2104; a key longer than one block is hashed first. */
  function Hmac(p: Primitives, key: Bytes, data: Bytes): Bytes {
    var short := if |key| > BLOCK_LEN then p.blake2s(key) else key;
    var k := if |short| < BLOCK_LEN then short + Zeros(BLOCK_LEN - |short|) else short;
    p.blake2s(XorAll(0x5c, k) + p.blake2s(XorAll(0x36, k) + data))
  }

  /** The two-output HKDF of section 4.3 of the Noise Protocol Framework. */
  function Hkdf2(p: Primitives, ck: Bytes, ikm: Bytes): (Bytes, Bytes) {
    var temp := Hmac(p, ck, ikm);
    var o1 := Hmac(p, temp, [1]);
    (o1, Hmac(p, temp, o1 + [2]))
  }

  /** `Noise.dh`: refuses wrong key lengths and the all-zero output. */
  function Dh(p: Primitives, private: Bytes, public: Bytes): Option<Bytes> {
    if |private| == KEY_LEN && |public| == KEY_LEN then p.agree(private, public) else None
  }

  /** No two different byte strings in `inputs` hash alike. */
  ghost predicate CollisionFree(p: Primitives, inputs: set<Bytes>) {
    forall x, y :: x in inputs && y in inputs && p.blake2s(x) == p.blake2s(y) ==> x == y
  }

  function Padded(x: Bytes, n: nat): (r: Bytes)
    ensures |r| == n
  {
    if |x| < n then x + Zeros(n - |x|) else x[..n]
  }

  function Tagged(text: Bytes): (r: Bytes)
    ensures |r| == |text| + TAG_LEN
  {
    text + Zeros(TAG_LEN)
  }

  function Untagged(ct: Bytes): (r: Option<Bytes>)
    ensures r.Some? ==> |ct| == |r.value| + TAG_LEN
  {
    if |ct| >= TAG_LEN && ct[|ct| - TAG_LEN..] == Zeros(TAG_LEN) then Some(ct[..|ct| - TAG_LEN]) else None
  }

  /** A toy instance; it shows that the laws can be met together. */
  function Toy(): Primitives {
    Primitives(
      x => Padded(x, HASH_LEN),
      x => Padded(x, KEY_LEN),
      (a, b) => Some(Zeros(KEY_LEN)),
      (k, n, ad, text) => Tagged(text),
      (k, n, ad, ct) => Untagged(ct))
  }

  lemma UntaggedTagged(text: Bytes)
    ensures Untagged(Tagged(text)) == Some(text)
  {
    var ct := Tagged(text);
    assert ct[|ct| - TAG_LEN..] == Zeros(TAG_LEN) && ct[..|ct| - TAG_LEN] == text;
  }

  lemma LawsAreSatisfiable()
    ensures Toy().Lawful()
  {
    hide Padded, Tagged, Untagged;
    forall text: Bytes
      ensures Untagged(Tagged(text)) == Some(text)
    {
      UntaggedTagged(text);
    }
  }
}
