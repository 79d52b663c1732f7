/** Noise's SymmetricState: the running hash, the chaining key and the handshake cipher. */
module SymmetricStates {
  import opened Prelude
  import opened Crypto
  import opened CipherStates

  const PROTOCOL_NAME := "Noise_XX_25519_ChaChaPoly_BLAKE2s"
  const PROLOGUE := "SyncMob/1"

  /** `mixed` lists everything mixed into `h` so far; it is history. */
  datatype Sym = Sym(h: Bytes, ck: Bytes, cipher: Cipher, mixed: seq<Bytes>)

  function InitialHash(p: Primitives, name: string): Bytes {
    var b := Ascii(name);
    if |b| <= HASH_LEN then b + Zeros(HASH_LEN - |b|) else p.blake2s(b)
  }

  function InitialSym(p: Primitives, name: string): Sym {
    var h := InitialHash(p, name);
    Sym(h, h, Rekeyed(Fresh(), None), [])
  }

  function MixedHash(p: Primitives, s: Sym, data: Bytes): Sym {
    s.(h := p.blake2s(s.h + data), mixed := s.mixed + [data])
  }

  function MixedKey(p: Primitives, s: Sym, ikm: Bytes): Sym {
    var (newCk, tempK) := Hkdf2(p, s.ck, ikm);
    s.(ck := newCk, cipher := Rekeyed(s.cipher, Some(tempK)))
  }

  function EncryptedAndHashed(p: Primitives, s: Sym, plaintext: Bytes): (Sym, Result<Bytes, NoiseError>) {
    var (c, r) := Encrypted(p, s.cipher, s.h, plaintext);
    match r
    case Err(_) => (s.(cipher := c), r)
    case Ok(ct) => (MixedHash(p, s.(cipher := c), ct), r)
  }

  function DecryptedAndHashed(p: Primitives, s: Sym, ciphertext: Bytes): (Sym, Result<Bytes, NoiseError>) {
    var (c, r) := Decrypted(p, s.cipher, s.h, ciphertext);
    match r
    case Err(_) => (s.(cipher := c), r)
    case Ok(_) => (MixedHash(p, s.(cipher := c), ciphertext), r)
  }

  /** The two transport keys, first the initiator's sending key. */
  function TransportKeys(p: Primitives, s: Sym): (Bytes, Bytes) {
    Hkdf2(p, s.ck, [])
  }

  /** The hash reached from `start` by mixing in `mixed`, item by item. */
  function Chain(p: Primitives, start: Bytes, mixed: seq<Bytes>): Bytes {
    if mixed == [] then start
    else p.blake2s(Chain(p, start, mixed[..|mixed| - 1]) + mixed[|mixed| - 1])
  }

  /** The inputs hashed along that chain. */
  ghost function ChainInputs(p: Primitives, start: Bytes, mixed: seq<Bytes>): set<Bytes> {
    if mixed == [] then {}
    else ChainInputs(p, start, mixed[..|mixed| - 1]) + {Chain(p, start, mixed[..|mixed| - 1]) + mixed[|mixed| - 1]}
  }

  /** `h` is a 32-byte hash of exactly what was mixed in. */
  ghost predicate Tracks(p: Primitives, h: Bytes, mixed: seq<Bytes>) {
    && |h| == HASH_LEN
    && h == Chain(p, InitialHash(p, PROTOCOL_NAME), mixed)
  }

  lemma MixedHashTracks(p: Primitives, h: Bytes, mixed: seq<Bytes>, data: Bytes)
    requires p.Lawful() && Tracks(p, h, mixed)
    ensures Tracks(p, p.blake2s(h + data), mixed + [data])
  {
    HashLaw(p, h + data);
    hide Primitives.Lawful;
    assert (mixed + [data])[..|mixed|] == mixed;
  }

  lemma ChainLength(p: Primitives, start: Bytes, mixed: seq<Bytes>)
    requires p.Lawful() && |start| == HASH_LEN
    ensures |Chain(p, start, mixed)| == HASH_LEN
  {
    if mixed != [] {
      HashLaw(p, Chain(p, start, mixed[..|mixed| - 1]) + mixed[|mixed| - 1]);
    }
  }

  lemma SplitAt(h: Bytes, g: Bytes, x: Bytes, y: Bytes)
    requires |h| == |g| && h + x == g + y
    ensures h == g && x == y
  {
    assert h == (h + x)[..|h|] && g == (g + y)[..|g|];
    assert x == (h + x)[|h|..] && y == (g + y)[|g|..];
  }

  /** Without collisions among the inputs hashed on either side, equal hashes mean equal transcripts. */
  lemma {:induction false} ChainInjective(p: Primitives, start: Bytes, a: seq<Bytes>, b: seq<Bytes>)
    requires p.Lawful() && |start| == HASH_LEN
    requires |a| == |b|
    requires CollisionFree(p, ChainInputs(p, start, a) + ChainInputs(p, start, b))
    requires Chain(p, start, a) == Chain(p, start, b)
    ensures a == b
  {
    hide Primitives.Lawful;
    if a != [] {
      var a', b' := a[..|a| - 1], b[..|b| - 1];
      var h, g := Chain(p, start, a'), Chain(p, start, b');
      assert p.blake2s(h + a[|a| - 1]) == p.blake2s(g + b[|b| - 1]);
      assert h + a[|a| - 1] == g + b[|b| - 1];
      ChainLength(p, start, a');
      ChainLength(p, start, b');
      SplitAt(h, g, a[|a| - 1], b[|b| - 1]);
      ChainInjective(p, start, a', b');
      assert a == a' + [a[|a| - 1]] && b == b' + [b[|b| - 1]];
    }
  }

  class SymmetricState {
    const p: Primitives
    var h: Bytes
    var ck: Bytes
    const cipher: CipherState
    ghost var mixed: seq<Bytes>

    ghost predicate Valid() {
      cipher.p == p
    }

    ghost function Model(): Sym
      reads this, cipher
    {
      Sym(h, ck, cipher.Model(), mixed)
    }

    constructor (p: Primitives, protocolName: string)
      ensures Valid() && this.p == p && fresh(cipher)
      ensures Model() == InitialSym(p, protocolName)
    {
      var name := Ascii(protocolName);
      var h0 := if |name| <= HASH_LEN then name + Zeros(HASH_LEN - |name|) else p.blake2s(name);
      var c := new CipherState(p);
      c.InitializeKey(None);
      this.p, this.h, this.ck, this.cipher, this.mixed := p, h0, h0, c, [];
    }

    method MixHash(data: Bytes)
      modifies this
      ensures Model() == MixedHash(p, old(Model()), data)
    {
      h := p.blake2s(h + data);
      mixed := mixed + [data];
    }

    method MixKey(ikm: Bytes)
      modifies this, cipher
      ensures Model() == MixedKey(p, old(Model()), ikm)
    {
      var (newCk, tempK) := Hkdf2(p, ck, ikm);
      ck := newCk;
      cipher.InitializeKey(Some(tempK));
    }

    method EncryptAndHash(plaintext: Bytes) returns (r: Result<Bytes, NoiseError>)
      requires Valid()
      modifies this, cipher
      ensures (Model(), r) == EncryptedAndHashed(p, old(Model()), plaintext)
    {
      r := cipher.EncryptWithAd(h, plaintext);
      if r.Ok? {
        MixHash(r.value);
      }
    }

    method DecryptAndHash(ciphertext: Bytes) returns (r: Result<Bytes, NoiseError>)
      requires Valid()
      modifies this, cipher
      ensures (Model(), r) == DecryptedAndHashed(p, old(Model()), ciphertext)
    {
      r := cipher.DecryptWithAd(h, ciphertext);
      if r.Ok? {
        MixHash(ciphertext);
      }
    }

    method Split() returns (c1: CipherState, c2: CipherState)
      ensures fresh(c1) && fresh(c2) && c1 != c2 && c1.p == p && c2.p == p
      ensures c1.Model() == Rekeyed(Fresh(), Some(TransportKeys(p, Model()).0))
      ensures c2.Model() == Rekeyed(Fresh(), Some(TransportKeys(p, Model()).1))
    {
      var (t1, t2) := Hkdf2(p, ck, []);
      c1 := new CipherState(p);
      c1.InitializeKey(Some(t1));
      c2 := new CipherState(p);
      c2.InitializeKey(Some(t2));
    }
  }
}
