/** One direction of a Noise cipher: a key, a strictly increasing counter, and no nonce used twice. */
module CipherStates {
  import opened Prelude
  import opened Crypto

  /** The reserved counter value, 2^64 - 1: `-1L` in the source's signed 64-bit field. */
  const RESERVED: nat := 0xFFFF_FFFF_FFFF_FFFF

  datatype NoiseError = NonceExhausted | AuthenticationFailed | ShortMessage | BadRemoteStatic
                      | RefusedDh | OutOfOrder | MessageTooLarge | NotFinished

  /** One successful AEAD call: which key epoch it ran in and the nonce bytes it was given. */
  datatype Use = Use(epoch: nat, nonce: Bytes)

  /** `epoch` counts key resets and `used` records every successful AEAD call; both are history. */
  datatype Cipher = Cipher(k: Option<Bytes>, n: nat, epoch: nat, used: seq<Use>)

  /** 32 zero bits followed by the counter, little-endian. */
  function NonceBytes(n: nat): (b: Bytes)
    ensures |b| == 12
  {
    Zeros(4) + LittleEndian(n, 8)
  }

  function NonceCounter(nonce: Bytes): nat
    requires |nonce| == 12
  {
    FromLittleEndian(nonce[4..])
  }

  function Fresh(): Cipher {
    Cipher(None, 0, 0, [])
  }

  function Rekeyed(c: Cipher, key: Option<Bytes>): Cipher {
    Cipher(key, 0, c.epoch + 1, c.used)
  }

  /** The state after one AEAD call succeeded. */
  function Advance(c: Cipher): Cipher {
    c.(n := c.n + 1, used := c.used + [Use(c.epoch, NonceBytes(c.n))])
  }

  function Encrypted(p: Primitives, c: Cipher, ad: Bytes, plaintext: Bytes): (r: (Cipher, Result<Bytes, NoiseError>))
  {
    match c.k
    case None => (c, Ok(plaintext))
    case Some(key) =>
      if c.n == RESERVED then (c, Err(NonceExhausted))
      else (Advance(c), Ok(p.seal(key, NonceBytes(c.n), ad, plaintext)))
  }

  function Decrypted(p: Primitives, c: Cipher, ad: Bytes, ciphertext: Bytes): (r: (Cipher, Result<Bytes, NoiseError>))
  {
    match c.k
    case None => (c, Ok(ciphertext))
    case Some(key) =>
      if c.n == RESERVED then (c, Err(NonceExhausted))
      else
        match p.open(key, NonceBytes(c.n), ad, ciphertext)
        case None => (c, Err(AuthenticationFailed))
        case Some(plaintext) => (Advance(c), Ok(plaintext))
  }

  /**
   * The nonce discipline: the counter never passes the reserved value, no recorded nonce carries it,
   * nonces of the current epoch lie below the counter, and no (epoch, nonce) pair occurs twice.
   */
  ghost predicate NonceDiscipline(c: Cipher) {
    && c.n <= RESERVED
    && (forall i :: 0 <= i < |c.used| ==>
          && |c.used[i].nonce| == 12
          && c.used[i].epoch <= c.epoch
          && NonceCounter(c.used[i].nonce) < RESERVED
          && (c.used[i].epoch == c.epoch ==> NonceCounter(c.used[i].nonce) < c.n))
    && (forall i, j :: 0 <= i < j < |c.used| ==> c.used[i] != c.used[j])
  }

  lemma NonceRoundTrip(n: nat)
    requires n <= RESERVED
    ensures NonceCounter(NonceBytes(n)) == n
  {
    Pow256Values();
    LittleEndianRoundTrip(n, 8);
    assert NonceBytes(n)[4..] == LittleEndian(n, 8);
  }

  /** The little-endian loop is injective on the counters in use. */
  lemma NonceBytesInjective(m: nat, n: nat)
    requires m <= RESERVED && n <= RESERVED
    ensures NonceBytes(m) == NonceBytes(n) <==> m == n
  {
    NonceRoundTrip(m);
    NonceRoundTrip(n);
  }

  lemma AdvanceKeepsDiscipline(c: Cipher)
    requires NonceDiscipline(c) && c.n < RESERVED
    ensures NonceDiscipline(Advance(c))
  {
    NonceRoundTrip(c.n);
  }

  lemma InitializeKeepsDiscipline(c: Cipher, key: Option<Bytes>)
    requires NonceDiscipline(c)
    ensures NonceDiscipline(Rekeyed(c, key))
  {
  }

  lemma CallsKeepDiscipline(p: Primitives, c: Cipher, ad: Bytes, text: Bytes)
    requires NonceDiscipline(c)
    ensures NonceDiscipline(Encrypted(p, c, ad, text).0)
    ensures NonceDiscipline(Decrypted(p, c, ad, text).0)
  {
    if c.n < RESERVED {
      AdvanceKeepsDiscipline(c);
    }
  }

  /** The mutable cipher of Noise.kt. `epoch` and `used` are history only. */
  class CipherState {
    const p: Primitives
    var k: Option<Bytes>
    var n: nat
    ghost var epoch: nat
    ghost var used: seq<Use>

    ghost function Model(): Cipher
      reads this
    {
      Cipher(k, n, epoch, used)
    }

    constructor (p: Primitives)
      ensures this.p == p && Model() == Fresh()
    {
      this.p := p;
      k, n, epoch, used := None, 0, 0, [];
    }

    method InitializeKey(key: Option<Bytes>)
      modifies this
      ensures Model() == Rekeyed(old(Model()), key)
    {
      k := key;
      n := 0;
      epoch := epoch + 1;
    }

    /** The loop fills the counter's eight bytes, lowest first. */
    method Nonce() returns (nonce: Bytes)
      ensures nonce == NonceBytes(n)
    {
      hide LittleEndian;
      var b := new byte[12](_ => 0);
      var v := n;
      ghost var done: Bytes := [];
      for i := 0 to 8
        invariant |done| == i && LittleEndian(n, 8) == done + LittleEndian(v, 8 - i)
        invariant forall j :: 0 <= j < 12 ==> b[j] == (if 4 <= j < 4 + i then done[j - 4] else 0)
      {
        LittleEndianStep(v, 8 - i);
        b[4 + i] := v % 256;
        done := done + [v % 256];
        v := v / 256;
      }
      LittleEndianNone(v);
      nonce := b[..];
    }

    method EncryptWithAd(ad: Bytes, plaintext: Bytes) returns (r: Result<Bytes, NoiseError>)
      modifies this
      ensures (Model(), r) == Encrypted(p, old(Model()), ad, plaintext)
    {
      if k == None {
        return Ok(plaintext);
      }
      if n == RESERVED {
        return Err(NonceExhausted);
      }
      var nonce := Nonce();
      var out := p.seal(k.value, nonce, ad, plaintext);
      used := used + [Use(epoch, nonce)];
      n := n + 1;
      return Ok(out);
    }

    method DecryptWithAd(ad: Bytes, ciphertext: Bytes) returns (r: Result<Bytes, NoiseError>)
      modifies this
      ensures (Model(), r) == Decrypted(p, old(Model()), ad, ciphertext)
    {
      if k == None {
        return Ok(ciphertext);
      }
      if n == RESERVED {
        return Err(NonceExhausted);
      }
      var nonce := Nonce();
      var out := p.open(k.value, nonce, ad, ciphertext);
      if out == None {
        return Err(AuthenticationFailed);
      }
      used := used + [Use(epoch, nonce)];
      n := n + 1;
      return Ok(out.value);
    }
  }
}
