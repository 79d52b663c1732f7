/**
 * Where the keys of XX come from: every handshake and transport key is the HMAC chain over exactly the three
 * Diffie-Hellman results, and every field is sealed under the key, counter and hash of its place.
 */
module HandshakeKeys {
  import opened Prelude
  import opened Crypto
  import opened CipherStates
  import opened SymmetricStates
  import opened Handshakes
  import opened HandshakeProofs

  // ---- the key schedule -------------------------------------------------------------

  /** The 33-byte protocol name is longer than a hash, so both chains start from its hash. */
  function NameHash(p: Primitives): Bytes {
    p.blake2s(Ascii("Noise_XX_25519_ChaChaPoly_BLAKE2s"))
  }

  /** The chaining key after the given Diffie-Hellman results, in order. */
  function ChainingKey(p: Primitives, secrets: seq<Bytes>): Bytes {
    if secrets == [] then NameHash(p) else
      var n := |secrets| - 1;
      Hmac(p, Hmac(p, ChainingKey(p, secrets[..n]), secrets[n]), [1])
  }

  /** The handshake key that belongs to that chaining key. */
  function StageKey(p: Primitives, secrets: seq<Bytes>): Bytes
    requires secrets != []
  {
    var n := |secrets| - 1;
    Hmac(p, Hmac(p, ChainingKey(p, secrets[..n]), secrets[n]), ChainingKey(p, secrets) + [2])
  }

  /** The initiator's sending key, and the responder's. */
  function FirstKey(p: Primitives, secrets: seq<Bytes>): Bytes {
    Hmac(p, Hmac(p, ChainingKey(p, secrets), []), [1])
  }

  function SecondKey(p: Primitives, secrets: seq<Bytes>): Bytes {
    Hmac(p, Hmac(p, ChainingKey(p, secrets), []), FirstKey(p, secrets) + [2])
  }

  /** The running hash over prologue and `mixed`. */
  function RunningHash(p: Primitives, mixed: seq<Bytes>): Bytes {
    Chain(p, NameHash(p), [Ascii("SyncMob/1")] + mixed)
  }

  function SealOf(p: Primitives, secrets: seq<Bytes>, n: nat, mixed: seq<Bytes>, plaintext: Bytes): Bytes
    requires secrets != []
  {
    p.seal(StageKey(p, secrets), NonceBytes(n), RunningHash(p, mixed), plaintext)
  }

  predicate OpensAs(p: Primitives, secrets: seq<Bytes>, n: nat, mixed: seq<Bytes>, ciphertext: Bytes, plaintext: Bytes)
    requires secrets != []
  {
    p.open(StageKey(p, secrets), NonceBytes(n), RunningHash(p, mixed), ciphertext) == Some(plaintext)
  }

  // ---- the state that stands behind it ------------------------------------------------

  /** The symmetric state after the given secrets and transcript, with `n` uses of its key. */
  ghost predicate At(p: Primitives, s: Sym, secrets: seq<Bytes>, mixed: seq<Bytes>, n: nat) {
    && s.ck == ChainingKey(p, secrets) && s.h == RunningHash(p, mixed) && s.cipher.n == n
    && s.cipher.k == (if secrets == [] then None else Some(StageKey(p, secrets)))
  }

  lemma ProtocolNameIsLong()
    ensures |Ascii(PROTOCOL_NAME)| == 33 && PROTOCOL_NAME == "Noise_XX_25519_ChaChaPoly_BLAKE2s"
  {
  }

  lemma HashOneMore(p: Primitives, mixed: seq<Bytes>, data: Bytes)
    ensures RunningHash(p, mixed + [data]) == p.blake2s(RunningHash(p, mixed) + data)
  {
    var longer := [Ascii("SyncMob/1")] + (mixed + [data]);
    assert longer[..|longer| - 1] == [Ascii("SyncMob/1")] + mixed;
  }

  lemma StartIsAt(p: Primitives, initiator: bool, sPriv: Bytes, sPub: Bytes)
    ensures At(p, Start(p, initiator, sPriv, sPub).sym, [], [], 0)
  {
    ProtocolNameIsLong();
    hide Ascii;
    var one := [Ascii("SyncMob/1")];
    assert one + [] == one && one[..0] == [];
    assert Chain(p, NameHash(p), one) == p.blake2s(Chain(p, NameHash(p), []) + one[0]);
  }

  lemma HashedIsAt(p: Primitives, s: Sym, secrets: seq<Bytes>, mixed: seq<Bytes>, n: nat, data: Bytes)
    requires At(p, s, secrets, mixed, n)
    ensures At(p, MixedHash(p, s, data), secrets, mixed + [data], n)
  {
    HashOneMore(p, mixed, data);
    hide RunningHash, ChainingKey, StageKey;
  }

  lemma DhIsAt(p: Primitives, s: Sym, secrets: seq<Bytes>, mixed: seq<Bytes>, n: nat, private: Bytes, public: Bytes)
    requires At(p, s, secrets, mixed, n) && MixedDh(p, s, private, public).Some?
    ensures p.agree(private, public).Some?
    ensures At(p, MixedDh(p, s, private, public).value, secrets + [p.agree(private, public).value], mixed, 0)
  {
    var z := p.agree(private, public).value;
    assert (secrets + [z])[..|secrets|] == secrets;
    hide RunningHash, Hmac;
  }

  lemma SealIsAt(p: Primitives, s: Sym, secrets: seq<Bytes>, mixed: seq<Bytes>, n: nat, plaintext: Bytes)
    requires At(p, s, secrets, mixed, n) && secrets != []
    ensures var (t, r) := EncryptedAndHashed(p, s, plaintext);
            r.Ok? ==> r.value == SealOf(p, secrets, n, mixed, plaintext) && At(p, t, secrets, mixed + [r.value], n + 1)
  {
    HashOneMore(p, mixed, SealOf(p, secrets, n, mixed, plaintext));
    hide RunningHash, ChainingKey, StageKey, NonceBytes;
  }

  lemma OpenIsAt(p: Primitives, s: Sym, secrets: seq<Bytes>, mixed: seq<Bytes>, n: nat, ciphertext: Bytes)
    requires At(p, s, secrets, mixed, n) && secrets != []
    ensures var (t, r) := DecryptedAndHashed(p, s, ciphertext);
            r.Ok? ==> OpensAs(p, secrets, n, mixed, ciphertext, r.value) && At(p, t, secrets, mixed + [ciphertext], n + 1)
  {
    HashOneMore(p, mixed, ciphertext);
    hide RunningHash, ChainingKey, StageKey, NonceBytes;
  }

  /** Before the first secret the payload passes in the clear, hashed as it is. */
  lemma ClearIsAt(p: Primitives, s: Sym, mixed: seq<Bytes>, text: Bytes)
    requires At(p, s, [], mixed, 0)
    ensures var (t, r) := EncryptedAndHashed(p, s, text); r == Ok(text) && At(p, t, [], mixed + [text], 0)
    ensures var (t, r) := DecryptedAndHashed(p, s, text); r == Ok(text) && At(p, t, [], mixed + [text], 0)
  {
    HashOneMore(p, mixed, text);
    hide RunningHash, ChainingKey, StageKey;
  }

  // ---- the two halves of messages 2 and 3 ----------------------------------------------------

  lemma StaticWrittenIsAt(p: Primitives, st: Party, prefix: Bytes, payload: Bytes, secrets: seq<Bytes>, mixed: seq<Bytes>, n: nat)
    requires st.re.Some? && At(p, st.sym, secrets, mixed, n) && secrets != []
    requires StaticWritten(p, st, prefix, payload).1.Ok?
    ensures p.agree(st.sPriv, st.re.value).Some?
    ensures var (w, m) := StaticWritten(p, st, prefix, payload);
            var longer := secrets + [p.agree(st.sPriv, st.re.value).value];
            var a := SealOf(p, secrets, n, mixed, st.sPub);
            var b := SealOf(p, longer, 0, mixed + [a], payload);
            && m.value == prefix + a + b && At(p, w.sym, longer, mixed + [a] + [b], 1)
            && w == st.(sym := w.sym, step := st.step + 1)
  {
    hide At, EncryptedAndHashed, MixedDh, SealOf;
    SealIsAt(p, st.sym, secrets, mixed, n, st.sPub);
    var (s1, a) := EncryptedAndHashed(p, st.sym, st.sPub);
    DhIsAt(p, s1, secrets, mixed + [a.value], n + 1, st.sPriv, st.re.value);
    var z := p.agree(st.sPriv, st.re.value).value;
    SealIsAt(p, MixedDh(p, s1, st.sPriv, st.re.value).value, secrets + [z], mixed + [a.value], 0, payload);
  }

  lemma StaticReadIsAt(p: Primitives, st: Party, a: Bytes, b: Bytes, secrets: seq<Bytes>, mixed: seq<Bytes>, n: nat)
    requires st.ePriv.Some? && At(p, st.sym, secrets, mixed, n) && secrets != []
    requires StaticRead(p, st, a, b).1.Ok?
    ensures var (r, m) := StaticRead(p, st, a, b);
            && r.rs.Some? && p.agree(st.ePriv.value, r.rs.value).Some?
            && var longer := secrets + [p.agree(st.ePriv.value, r.rs.value).value];
               && OpensAs(p, secrets, n, mixed, a, r.rs.value) && OpensAs(p, longer, 0, mixed + [a], b, m.value)
               && At(p, r.sym, longer, mixed + [a] + [b], 1)
               && r == st.(sym := r.sym, step := st.step + 1, rs := r.rs)
  {
    hide At, DecryptedAndHashed, MixedDh, OpensAs;
    OpenIsAt(p, st.sym, secrets, mixed, n, a);
    var (s1, rs) := DecryptedAndHashed(p, st.sym, a);
    DhIsAt(p, s1, secrets, mixed + [a], n + 1, st.ePriv.value, rs.value);
    var z := p.agree(st.ePriv.value, rs.value).value;
    OpenIsAt(p, MixedDh(p, s1, st.ePriv.value, rs.value).value, secrets + [z], mixed + [a], 0, b);
  }

  lemma KeysAt(p: Primitives, st: Party, secrets: seq<Bytes>, mixed: seq<Bytes>, n: nat)
    requires At(p, st.sym, secrets, mixed, n)
    ensures SendingKey(p, st) == if st.initiator then FirstKey(p, secrets) else SecondKey(p, secrets)
    ensures ReceivingKey(p, st) == if st.initiator then SecondKey(p, secrets) else FirstKey(p, secrets)
  {
    hide RunningHash, ChainingKey, Hmac;
  }

  // ---- the initiator --------------------------------------------------------------------------

  lemma InitiatorOpens(p: Primitives, k: Keys, w1: Bytes)
    ensures var (st, m) := Written(p, Start(p, true, k.identity, p.publicKey(k.identity)), k.ephemeral, w1);
            var e := p.publicKey(k.ephemeral);
            && m == Ok(e + w1) && Ready(st) && st.initiator && st.step == 1 && At(p, st.sym, [], [e] + [w1], 0)
            && st.ePriv == Some(k.ephemeral) && st.sPriv == k.identity && st.sPub == p.publicKey(k.identity)
  {
    var st0, e := Start(p, true, k.identity, p.publicKey(k.identity)), p.publicKey(k.ephemeral);
    StartIsAt(p, true, k.identity, p.publicKey(k.identity));
    HashedIsAt(p, st0.sym, [], [], 0, e);
    ClearIsAt(p, MixedHash(p, st0.sym, e), [] + [e], w1);
    hide At, EncryptedAndHashed, MixedHash, InitialSym;
    assert [] + [e] == [e];
  }

  lemma InitiatorReads(p: Primitives, st: Party, m2: Bytes, mixed: seq<Bytes>)
    requires Ready(st) && st.initiator && st.step == 1 && At(p, st.sym, [], mixed, 0)
    requires Read(p, st, m2).1.Ok?
    ensures |m2| >= 80
    ensures var (end, r) := Read(p, st, m2);
            var e, a, b := m2[..32], m2[32..80], m2[80..];
            && end.rs.Some? && p.agree(st.ePriv.value, e).Some? && p.agree(st.ePriv.value, end.rs.value).Some?
            && var ee, es := p.agree(st.ePriv.value, e).value, p.agree(st.ePriv.value, end.rs.value).value;
               && OpensAs(p, [ee], 0, mixed + [e], a, end.rs.value) && OpensAs(p, [ee, es], 0, mixed + [e] + [a], b, r.value)
               && At(p, end.sym, [ee, es], mixed + [e] + [a] + [b], 1)
               && end == st.(sym := end.sym, step := 2, re := Some(e), rs := end.rs)
  {
    hide At, MixedDh, StaticRead, OpensAs;
    var e := m2[..32];
    HashedIsAt(p, st.sym, [], mixed, 0, e);
    var st1 := st.(sym := MixedHash(p, st.sym, e), re := Some(e));
    hide MixedHash;
    DhIsAt(p, st1.sym, [], mixed + [e], 0, st.ePriv.value, e);
    var ee := p.agree(st.ePriv.value, e).value;
    assert [] + [ee] == [ee];
    var st2 := st1.(sym := MixedDh(p, st1.sym, st.ePriv.value, e).value);
    StaticReadIsAt(p, st2, m2[32..80], m2[80..], [ee], mixed + [e], 0);
    var rs := Read(p, st, m2).0.rs.value;
    assert [ee] + [p.agree(st.ePriv.value, rs).value] == [ee, p.agree(st.ePriv.value, rs).value];
  }

  lemma InitiatorCloses(p: Primitives, st: Party, e: Bytes, w3: Bytes, secrets: seq<Bytes>, mixed: seq<Bytes>)
    requires Ready(st) && st.initiator && st.step == 2 && At(p, st.sym, secrets, mixed, 1) && secrets != []
    requires Written(p, st, e, w3).1.Ok?
    ensures p.agree(st.sPriv, st.re.value).Some?
    ensures var (end, m) := Written(p, st, e, w3);
            var longer := secrets + [p.agree(st.sPriv, st.re.value).value];
            var a := SealOf(p, secrets, 1, mixed, st.sPub);
            var b := SealOf(p, longer, 0, mixed + [a], w3);
            && m.value == a + b && At(p, end.sym, longer, mixed + [a] + [b], 1) && end.initiator && end.rs == st.rs
  {
    hide At, StaticWritten, SealOf;
    StaticWrittenIsAt(p, st, [], w3, secrets, mixed, 1);
    assert forall a: Bytes, b: Bytes :: [] + a + b == a + b;
  }

  /**
   * For every finished initiator, whatever was delivered: its keys are the HMAC chain over ee, es and se, and
   * each field was sealed or opened under the key of its stage, counter 0, 0, 1, 0, and the running hash.
   */
  lemma InitiatorKeys(p: Primitives, k: Keys, w1: Bytes, m2: Bytes, w3: Bytes) returns (ee: Bytes, es: Bytes, se: Bytes)
    requires InitiatorRun(p, k, w1, m2, w3).Some?
    ensures |m2| >= 80
    ensures var i := InitiatorRun(p, k, w1, m2, w3).value;
            var e, f, a, b := p.publicKey(k.ephemeral), m2[..32], m2[32..80], m2[80..];
            && i.st.rs.Some?
            && p.agree(k.ephemeral, f) == Some(ee)
            && p.agree(k.ephemeral, i.st.rs.value) == Some(es)
            && p.agree(k.identity, f) == Some(se)
            && SendingKey(p, i.st) == FirstKey(p, [ee, es, se]) && ReceivingKey(p, i.st) == SecondKey(p, [ee, es, se])
            && i.m1 == e + w1
            && OpensAs(p, [ee], 0, [e, w1, f], a, i.st.rs.value)
            && OpensAs(p, [ee, es], 0, [e, w1, f, a], b, i.read2)
            && var s := SealOf(p, [ee, es], 1, [e, w1, f, a, b], p.publicKey(k.identity));
               i.m3 == s + SealOf(p, [ee, es, se], 0, [e, w1, f, a, b, s], w3)
  {
    hide Written, Read, Start, At, SealOf, OpensAs, FirstKey, SecondKey;
    InitiatorOpens(p, k, w1);
    var st1 := InitiatorOpened(p, k, w1).0;
    var e := p.publicKey(k.ephemeral);
    InitiatorReads(p, st1, m2, [e] + [w1]);
    var st2 := Read(p, st1, m2).0;
    var f, a, b := m2[..32], m2[32..80], m2[80..];
    ee, es := p.agree(k.ephemeral, f).value, p.agree(k.ephemeral, st2.rs.value).value;
    assert [e] + [w1] + [f] == [e, w1, f] && [e, w1, f] + [a] == [e, w1, f, a] && [e, w1, f, a] + [b] == [e, w1, f, a, b];
    InitiatorCloses(p, st2, k.ephemeral, w3, [ee, es], [e, w1, f, a, b]);
    se := p.agree(k.identity, f).value;
    var st3 := Written(p, st2, k.ephemeral, w3).0;
    var s := SealOf(p, [ee, es], 1, [e, w1, f, a, b], p.publicKey(k.identity));
    var u := SealOf(p, [ee, es, se], 0, [e, w1, f, a, b, s], w3);
    assert [ee, es] + [se] == [ee, es, se];
    assert [e, w1, f, a, b] + [s] == [e, w1, f, a, b, s];
    KeysAt(p, st3, [ee, es, se], [e, w1, f, a, b, s] + [u], 1);
  }

  // ---- the responder ---------------------------------------------------------------------------

  lemma ResponderOpens(p: Primitives, k: Keys, m1: Bytes)
    requires Read(p, Start(p, false, k.identity, p.publicKey(k.identity)), m1).1.Ok?
    ensures |m1| >= 32
    ensures var (st, r) := Read(p, Start(p, false, k.identity, p.publicKey(k.identity)), m1);
            && r == Ok(m1[32..]) && Ready(st) && !st.initiator && st.step == 1 && st.re == Some(m1[..32])
            && At(p, st.sym, [], [m1[..32]] + [m1[32..]], 0)
            && st.sPriv == k.identity && st.sPub == p.publicKey(k.identity)
  {
    var st0, e := Start(p, false, k.identity, p.publicKey(k.identity)), m1[..32];
    StartIsAt(p, false, k.identity, p.publicKey(k.identity));
    HashedIsAt(p, st0.sym, [], [], 0, e);
    ClearIsAt(p, MixedHash(p, st0.sym, e), [] + [e], m1[32..]);
    hide At, DecryptedAndHashed, MixedHash, InitialSym;
    assert [] + [e] == [e];
  }

  lemma ResponderWrites(p: Primitives, st: Party, ephemeral: Bytes, w2: Bytes, mixed: seq<Bytes>)
    requires Ready(st) && !st.initiator && st.step == 1 && At(p, st.sym, [], mixed, 0)
    requires Written(p, st, ephemeral, w2).1.Ok?
    ensures p.agree(ephemeral, st.re.value).Some? && p.agree(st.sPriv, st.re.value).Some?
    ensures var (end, r) := Written(p, st, ephemeral, w2);
            var f, ee, es := p.publicKey(ephemeral), p.agree(ephemeral, st.re.value).value, p.agree(st.sPriv, st.re.value).value;
            var a := SealOf(p, [ee], 0, mixed + [f], st.sPub);
            var b := SealOf(p, [ee, es], 0, mixed + [f] + [a], w2);
            && r.value == f + a + b && At(p, end.sym, [ee, es], mixed + [f] + [a] + [b], 1)
            && end == st.(sym := end.sym, step := 2, ePriv := Some(ephemeral), ePub := Some(f))
  {
    hide At, MixedDh, StaticWritten, SealOf;
    var f := p.publicKey(ephemeral);
    HashedIsAt(p, st.sym, [], mixed, 0, f);
    var st1 := WithEphemeral(p, st, ephemeral);
    hide MixedHash;
    DhIsAt(p, st1.sym, [], mixed + [f], 0, ephemeral, st.re.value);
    var ee := p.agree(ephemeral, st.re.value).value;
    assert [] + [ee] == [ee];
    StaticWrittenIsAt(p, st1.(sym := MixedDh(p, st1.sym, ephemeral, st.re.value).value), f, w2, [ee], mixed + [f], 0);
    assert [ee] + [p.agree(st.sPriv, st.re.value).value] == [ee, p.agree(st.sPriv, st.re.value).value];
  }

  lemma ResponderCloses(p: Primitives, st: Party, m3: Bytes, secrets: seq<Bytes>, mixed: seq<Bytes>)
    requires Ready(st) && !st.initiator && st.step == 2 && At(p, st.sym, secrets, mixed, 1) && secrets != []
    requires Read(p, st, m3).1.Ok?
    ensures |m3| >= 48
    ensures var (end, r) := Read(p, st, m3);
            && end.rs.Some? && p.agree(st.ePriv.value, end.rs.value).Some?
            && var longer := secrets + [p.agree(st.ePriv.value, end.rs.value).value];
               && OpensAs(p, secrets, 1, mixed, m3[..48], end.rs.value)
               && OpensAs(p, longer, 0, mixed + [m3[..48]], m3[48..], r.value)
               && At(p, end.sym, longer, mixed + [m3[..48]] + [m3[48..]], 1) && !end.initiator
  {
    hide At, StaticRead, OpensAs;
    StaticReadIsAt(p, st, m3[..48], m3[48..], secrets, mixed, 1);
  }

  /** The same for every finished responder; its part of es is its static key, of se its ephemeral key. */
  lemma ResponderKeys(p: Primitives, k: Keys, m1: Bytes, w2: Bytes, m3: Bytes) returns (ee: Bytes, es: Bytes, se: Bytes)
    requires ResponderRun(p, k, m1, w2, m3).Some?
    ensures |m1| >= 32 && |m3| >= 48
    ensures var r := ResponderRun(p, k, m1, w2, m3).value;
            var e, w1, f, s := m1[..32], m1[32..], p.publicKey(k.ephemeral), m3[..48];
            && r.st.rs.Some?
            && p.agree(k.ephemeral, e) == Some(ee)
            && p.agree(k.identity, e) == Some(es)
            && p.agree(k.ephemeral, r.st.rs.value) == Some(se)
            && ReceivingKey(p, r.st) == FirstKey(p, [ee, es, se]) && SendingKey(p, r.st) == SecondKey(p, [ee, es, se])
            && r.read1 == w1
            && var a := SealOf(p, [ee], 0, [e, w1, f], p.publicKey(k.identity));
               var b := SealOf(p, [ee, es], 0, [e, w1, f, a], w2);
               && r.m2 == f + a + b
               && OpensAs(p, [ee, es], 1, [e, w1, f, a, b], s, r.st.rs.value)
               && OpensAs(p, [ee, es, se], 0, [e, w1, f, a, b, s], m3[48..], r.read3)
  {
    hide Written, Read, Start, At, SealOf, OpensAs, FirstKey, SecondKey;
    ResponderOpens(p, k, m1);
    var st1 := Read(p, Start(p, false, k.identity, p.publicKey(k.identity)), m1).0;
    var e, w1, f := m1[..32], m1[32..], p.publicKey(k.ephemeral);
    ResponderWrites(p, st1, k.ephemeral, w2, [e] + [w1]);
    var st2 := Written(p, st1, k.ephemeral, w2).0;
    ee, es := p.agree(k.ephemeral, e).value, p.agree(k.identity, e).value;
    var a := SealOf(p, [ee], 0, [e, w1, f], p.publicKey(k.identity));
    var b := SealOf(p, [ee, es], 0, [e, w1, f, a], w2);
    assert [e] + [w1] + [f] == [e, w1, f] && [e, w1, f] + [a] == [e, w1, f, a] && [e, w1, f, a] + [b] == [e, w1, f, a, b];
    ResponderCloses(p, st2, m3, [ee, es], [e, w1, f, a, b]);
    var s := m3[..48];
    var st3 := Read(p, st2, m3).0;
    se := p.agree(k.ephemeral, st3.rs.value).value;
    assert [ee, es] + [se] == [ee, es, se];
    assert [e, w1, f, a, b] + [s] == [e, w1, f, a, b, s];
    KeysAt(p, st3, [ee, es, se], [e, w1, f, a, b, s] + [m3[48..]], 1);
  }

  // ---- different secrets, different keys -----------------------------------------------------------

  /** The two inputs that HMAC of a 32-byte key hashes, as RFC 2104 builds them. */
  function Padded(pad: byte, key: Bytes): Bytes
    requires |key| <= 64
  {
    seq(64, i requires 0 <= i < 64 => if i < |key| then XorByte(pad, key[i]) else pad)
  }

  function InnerInput(key: Bytes, data: Bytes): Bytes
    requires |key| <= 64
  {
    Padded(0x36, key) + data
  }

  function OuterInput(p: Primitives, key: Bytes, data: Bytes): Bytes
    requires |key| <= 64
  {
    Padded(0x5c, key) + p.blake2s(InnerInput(key, data))
  }

  lemma HmacOfShortKey(p: Primitives, key: Bytes, data: Bytes)
    requires |key| <= 64
    ensures Hmac(p, key, data) == p.blake2s(OuterInput(p, key, data))
  {
    var k := if |key| < 64 then key + Zeros(64 - |key|) else key;
    XorTwice(0x36, 0);
    XorTwice(0x5c, 0);
    hide XorByte;
    assert XorAll(0x36, k) == Padded(0x36, key);
    assert XorAll(0x5c, k) == Padded(0x5c, key);
  }

  lemma PaddingIsInjective(pad: byte, key: Bytes, other: Bytes)
    requires |key| == |other| <= 64 && Padded(pad, key) == Padded(pad, other)
    ensures key == other
  {
    hide XorByte;
    forall i | 0 <= i < |key|
      ensures key[i] == other[i]
    {
      assert Padded(pad, key)[i] == Padded(pad, other)[i];
      XorTwice(pad, key[i]);
      XorTwice(pad, other[i]);
    }
  }

  ghost function HmacInputs(p: Primitives, key: Bytes, data: Bytes): set<Bytes>
    requires |key| <= 64
  {
    {InnerInput(key, data), OuterInput(p, key, data)}
  }

  lemma HmacIsInjective(p: Primitives, key: Bytes, data: Bytes, key': Bytes, data': Bytes, inputs: set<Bytes>)
    requires p.Lawful() && |key| == |key'| <= 64 && CollisionFree(p, inputs)
    requires HmacInputs(p, key, data) <= inputs && HmacInputs(p, key', data') <= inputs
    requires Hmac(p, key, data) == Hmac(p, key', data')
    ensures key == key' && data == data'
  {
    HmacOfShortKey(p, key, data);
    HmacOfShortKey(p, key', data');
    hide Primitives.Lawful, Hmac, Padded;
    SplitAt(Padded(0x5c, key), Padded(0x5c, key'), p.blake2s(InnerInput(key, data)), p.blake2s(InnerInput(key', data')));
    PaddingIsInjective(0x5c, key, key');
    SplitAt(Padded(0x36, key), Padded(0x36, key'), data, data');
  }

  lemma ChainingKeyLength(p: Primitives, secrets: seq<Bytes>)
    requires p.Lawful()
    ensures |ChainingKey(p, secrets)| == 32
  {
    if secrets == [] {
      HashLaw(p, Ascii("Noise_XX_25519_ChaChaPoly_BLAKE2s"));
    } else {
      var n := |secrets| - 1;
      HmacLength(p, Hmac(p, ChainingKey(p, secrets[..n]), secrets[n]), [1]);
    }
  }

  lemma HmacLength(p: Primitives, key: Bytes, data: Bytes)
    requires p.Lawful()
    ensures |Hmac(p, key, data)| == 32
  {
    var short := if |key| > BLOCK_LEN then p.blake2s(key) else key;
    var k := if |short| < BLOCK_LEN then short + Zeros(BLOCK_LEN - |short|) else short;
    HashLaw(p, XorAll(0x5c, k) + p.blake2s(XorAll(0x36, k) + data));
  }

  /** Everything hashed on the way to a chaining key. */
  ghost function ChainingInputs(p: Primitives, secrets: seq<Bytes>): set<Bytes>
    requires p.Lawful()
  {
    if secrets == [] then {} else
      var n := |secrets| - 1;
      ChainingKeyLength(p, secrets[..n]);
      HmacLength(p, ChainingKey(p, secrets[..n]), secrets[n]);
      var temp := Hmac(p, ChainingKey(p, secrets[..n]), secrets[n]);
      ChainingInputs(p, secrets[..n]) + HmacInputs(p, ChainingKey(p, secrets[..n]), secrets[n]) + HmacInputs(p, temp, [1])
  }

  lemma {:induction false} ChainingKeyIsInjective(p: Primitives, secrets: seq<Bytes>, others: seq<Bytes>, inputs: set<Bytes>)
    requires p.Lawful() && |secrets| == |others| && CollisionFree(p, inputs)
    requires ChainingInputs(p, secrets) <= inputs && ChainingInputs(p, others) <= inputs
    requires ChainingKey(p, secrets) == ChainingKey(p, others)
    ensures secrets == others
    decreases |secrets|
  {
    hide Primitives.Lawful, Hmac, HmacInputs, CollisionFree;
    if secrets != [] {
      var n := |secrets| - 1;
      var s, o := secrets[..n], others[..n];
      var ck, cl := ChainingKey(p, s), ChainingKey(p, o);
      ChainingKeyLength(p, s);
      ChainingKeyLength(p, o);
      HmacLength(p, ck, secrets[n]);
      HmacLength(p, cl, others[n]);
      HmacIsInjective(p, Hmac(p, ck, secrets[n]), [1], Hmac(p, cl, others[n]), [1], inputs);
      HmacIsInjective(p, ck, secrets[n], cl, others[n], inputs);
      ChainingKeyIsInjective(p, s, o, inputs);
      assert secrets == s + [secrets[n]] && others == o + [others[n]];
    }
  }

  /** Everything hashed on the way to the first transport key. */
  ghost function FirstKeyInputs(p: Primitives, secrets: seq<Bytes>): set<Bytes>
    requires p.Lawful()
  {
    ChainingKeyLength(p, secrets);
    HmacLength(p, ChainingKey(p, secrets), []);
    ChainingInputs(p, secrets) + HmacInputs(p, ChainingKey(p, secrets), []) + HmacInputs(p, Hmac(p, ChainingKey(p, secrets), []), [1])
  }

  /** Without collisions among the inputs hashed, two runs share a sending key exactly when they share all three secrets. */
  lemma KeysDependOnAllSecrets(p: Primitives, secrets: seq<Bytes>, others: seq<Bytes>)
    requires p.Lawful() && |secrets| == |others|
    requires CollisionFree(p, FirstKeyInputs(p, secrets) + FirstKeyInputs(p, others))
    ensures FirstKey(p, secrets) == FirstKey(p, others) <==> secrets == others
  {
    hide Primitives.Lawful, Hmac, HmacInputs, CollisionFree, ChainingInputs, ChainingKey;
    var inputs := FirstKeyInputs(p, secrets) + FirstKeyInputs(p, others);
    var ck, cl := ChainingKey(p, secrets), ChainingKey(p, others);
    ChainingKeyLength(p, secrets);
    ChainingKeyLength(p, others);
    HmacLength(p, ck, []);
    HmacLength(p, cl, []);
    if FirstKey(p, secrets) == FirstKey(p, others) {
      HmacIsInjective(p, Hmac(p, ck, []), [1], Hmac(p, cl, []), [1], inputs);
      HmacIsInjective(p, ck, [], cl, [], inputs);
      ChainingKeyIsInjective(p, secrets, others, inputs);
    }
  }

  /**
   * Two finished ends, whatever was delivered to them, can talk in the initiator's direction exactly when they
   * computed the same ee, es and se.
   */
  lemma EndsShareKeysExactly(p: Primitives, kI: Keys, kR: Keys, w1: Bytes, w2: Bytes, w3: Bytes, m1: Bytes, m2: Bytes, m3: Bytes)
    returns (mine: seq<Bytes>, theirs: seq<Bytes>)
    requires p.Lawful() && InitiatorRun(p, kI, w1, m2, w3).Some? && ResponderRun(p, kR, m1, w2, m3).Some?
    ensures |mine| == |theirs| == 3 && |m1| >= 32 && |m2| >= 80
    ensures var i, r := InitiatorRun(p, kI, w1, m2, w3).value, ResponderRun(p, kR, m1, w2, m3).value;
            && i.st.rs.Some? && r.st.rs.Some?
            && p.agree(kI.ephemeral, m2[..32]) == Some(mine[0]) && p.agree(kR.ephemeral, m1[..32]) == Some(theirs[0])
            && p.agree(kI.ephemeral, i.st.rs.value) == Some(mine[1]) && p.agree(kR.identity, m1[..32]) == Some(theirs[1])
            && p.agree(kI.identity, m2[..32]) == Some(mine[2]) && p.agree(kR.ephemeral, r.st.rs.value) == Some(theirs[2])
            && (CollisionFree(p, FirstKeyInputs(p, mine) + FirstKeyInputs(p, theirs)) ==>
                 (SendingKey(p, i.st) == ReceivingKey(p, r.st) <==> mine == theirs))
  {
    hide InitiatorRun, ResponderRun, FirstKey, SecondKey, SealOf, OpensAs, CollisionFree, FirstKeyInputs, Primitives.Lawful;
    var ee, es, se := InitiatorKeys(p, kI, w1, m2, w3);
    var ff, fs, sf := ResponderKeys(p, kR, m1, w2, m3);
    mine, theirs := [ee, es, se], [ff, fs, sf];
    if CollisionFree(p, FirstKeyInputs(p, mine) + FirstKeyInputs(p, theirs)) {
      KeysDependOnAllSecrets(p, mine, theirs);
    }
  }
}
