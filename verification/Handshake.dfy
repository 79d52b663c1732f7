/** The XX handshake of Noise.kt: `-> e`, `<- e, ee, s, es`, `-> s, se`. */
module Handshakes {
  import opened Prelude
  import opened Crypto
  import opened CipherStates
  import opened SymmetricStates
  import opened Transports

  type Reply = Result<Bytes, NoiseError>

  datatype Party = Party(
    initiator: bool,
    sPriv: Bytes,
    sPub: Bytes,
    ePriv: Option<Bytes>,
    ePub: Option<Bytes>,
    re: Option<Bytes>,
    rs: Option<Bytes>,
    step: nat,
    sym: Sym)

  /** What each step may dereference: the reason no `!!` in the source ever meets null. */
  ghost predicate Ready(st: Party) {
    && (if st.initiator then
          && (st.step >= 1 ==> st.ePriv.Some? && st.ePub.Some?)
          && (st.step >= 2 ==> st.re.Some? && st.rs.Some?)
        else
          && (st.step >= 1 ==> st.re.Some?)
          && (st.step >= 2 ==> st.ePriv.Some? && st.ePub.Some?)
          && (st.step >= 3 ==> st.rs.Some?))
    && st.step <= 3
  }

  function Start(p: Primitives, initiator: bool, sPriv: Bytes, sPub: Bytes): (st: Party)
    ensures Ready(st) && st.step == 0
  {
    Party(initiator, sPriv, sPub, None, None, None, None, 0,
          MixedHash(p, InitialSym(p, PROTOCOL_NAME), Ascii(PROLOGUE)))
  }

  predicate IsFinished(st: Party) {
    st.step >= 3
  }

  /** Diffie-Hellman followed by `mixKey`; `None` when the agreement is refused. */
  function MixedDh(p: Primitives, s: Sym, private: Bytes, public: Bytes): Option<Sym> {
    match Dh(p, private, public)
    case None => None
    case Some(z) => Some(MixedKey(p, s, z))
  }

  function WithEphemeral(p: Primitives, st: Party, ephemeral: Bytes): Party {
    var e := p.publicKey(ephemeral);
    st.(ePriv := Some(ephemeral), ePub := Some(e), sym := MixedHash(p, st.sym, e))
  }

  /** The last move of every message: the payload, then the step. `prefix` is what the message holds so far. */
  function PayloadWritten(p: Primitives, st: Party, prefix: Bytes, payload: Bytes): (Party, Reply) {
    var (sym, r) := EncryptedAndHashed(p, st.sym, payload);
    match r
    case Err(e) => (st.(sym := sym), Err(e))
    case Ok(ct) => (st.(sym := sym, step := st.step + 1), Ok(prefix + ct))
  }

  function PayloadRead(p: Primitives, st: Party, ciphertext: Bytes): (Party, Reply) {
    var (sym, r) := DecryptedAndHashed(p, st.sym, ciphertext);
    match r
    case Err(e) => (st.(sym := sym), Err(e))
    case Ok(pt) => (st.(sym := sym, step := st.step + 1), Ok(pt))
  }

  /** `s` then the DH of the own static key with `re`, then the payload: shared by messages 2 and 3. */
  function StaticWritten(p: Primitives, st: Party, prefix: Bytes, payload: Bytes): (Party, Reply)
    requires st.re.Some?
  {
    var (sym, r) := EncryptedAndHashed(p, st.sym, st.sPub);
    match r
    case Err(e) => (st.(sym := sym), Err(e))
    case Ok(ct) =>
      match MixedDh(p, sym, st.sPriv, st.re.value)
      case None => (st.(sym := sym), Err(RefusedDh))
      case Some(sym2) => PayloadWritten(p, st.(sym := sym2), prefix + ct, payload)
  }

  /** The peer's `s` from 48 bytes, the DH of the own ephemeral key with it, then the payload. */
  function StaticRead(p: Primitives, st: Party, sealedStatic: Bytes, sealedPayload: Bytes): (Party, Reply)
    requires st.ePriv.Some?
  {
    var (sym, r) := DecryptedAndHashed(p, st.sym, sealedStatic);
    match r
    case Err(e) => (st.(sym := sym), Err(e))
    case Ok(rs) =>
      if |rs| != KEY_LEN then (st.(sym := sym), Err(BadRemoteStatic))
      else
        match MixedDh(p, sym, st.ePriv.value, rs)
        case None => (st.(sym := sym, rs := Some(rs)), Err(RefusedDh))
        case Some(sym2) => PayloadRead(p, st.(sym := sym2, rs := Some(rs)), sealedPayload)
  }

  /** `writeMessage`; `ephemeral` is the random private key it would draw. */
  function Written(p: Primitives, st: Party, ephemeral: Bytes, payload: Bytes): (r: (Party, Reply))
    requires Ready(st)
    ensures Ready(r.0)
  {
    if st.initiator && st.step == 0 then
      var st1 := WithEphemeral(p, st, ephemeral);
      PayloadWritten(p, st1, st1.ePub.value, payload)
    else if !st.initiator && st.step == 1 then
      var st1 := WithEphemeral(p, st, ephemeral);
      match MixedDh(p, st1.sym, ephemeral, st1.re.value)
      case None => (st1, Err(RefusedDh))
      case Some(sym) => StaticWritten(p, st1.(sym := sym), st1.ePub.value, payload)
    else if st.initiator && st.step == 2 then
      StaticWritten(p, st, [], payload)
    else
      (st, Err(OutOfOrder))
  }

  /** `readMessage`. */
  function Read(p: Primitives, st: Party, message: Bytes): (r: (Party, Reply))
    requires Ready(st)
    ensures Ready(r.0)
  {
    if !st.initiator && st.step == 0 then
      if |message| < 32 then (st, Err(ShortMessage))
      else
        var e := message[..32];
        PayloadRead(p, st.(sym := MixedHash(p, st.sym, e), re := Some(e)), message[32..])
    else if st.initiator && st.step == 1 then
      if |message| < 32 + 48 then (st, Err(ShortMessage))
      else
        var e := message[..32];
        var st1 := st.(sym := MixedHash(p, st.sym, e), re := Some(e));
        match MixedDh(p, st1.sym, st1.ePriv.value, e)
        case None => (st1, Err(RefusedDh))
        case Some(sym) => StaticRead(p, st1.(sym := sym), message[32..80], message[80..])
    else if !st.initiator && st.step == 2 then
      if |message| < 48 then (st, Err(ShortMessage))
      else StaticRead(p, st, message[..48], message[48..])
    else
      (st, Err(OutOfOrder))
  }

  /** Sending and receiving keys after the handshake. */
  function SendingKey(p: Primitives, st: Party): Bytes {
    var (k1, k2) := TransportKeys(p, st.sym);
    if st.initiator then k1 else k2
  }

  function ReceivingKey(p: Primitives, st: Party): Bytes {
    var (k1, k2) := TransportKeys(p, st.sym);
    if st.initiator then k2 else k1
  }

  class NoiseHandshake {
    const p: Primitives
    const initiator: bool
    const staticPrivate: Bytes
    const staticPublic: Bytes
    const sym: SymmetricState
    var ePrivate: Option<Bytes>
    var ePublic: Option<Bytes>
    var re: Option<Bytes>
    var remoteStatic: Option<Bytes>
    var step: nat

    ghost function Model(): Party
      reads this, sym, sym.cipher
    {
      Party(initiator, staticPrivate, staticPublic, ePrivate, ePublic, re, remoteStatic, step, sym.Model())
    }

    ghost predicate Valid()
      reads this, sym, sym.cipher
    {
      && sym.Valid() && sym.p == p
      && Ready(Model())
    }

    constructor (p: Primitives, initiator: bool, staticPrivate: Bytes, staticPublic: Bytes)
      requires |staticPrivate| == KEY_LEN && |staticPublic| == KEY_LEN
      ensures Valid() && this.p == p && fresh(sym) && fresh(sym.cipher)
      ensures Model() == Start(p, initiator, staticPrivate, staticPublic)
    {
      var s := new SymmetricState(p, PROTOCOL_NAME);
      s.MixHash(Ascii(PROLOGUE));
      this.p, this.initiator, this.sym := p, initiator, s;
      this.staticPrivate, this.staticPublic := staticPrivate, staticPublic;
      ePrivate, ePublic, re, remoteStatic, step := None, None, None, None, 0;
    }

    method GenerateEphemeral(private: Bytes)
      modifies this`ePrivate, this`ePublic
      ensures ePrivate == Some(private) && ePublic == Some(p.publicKey(private))
    {
      ePrivate := Some(private);
      ePublic := Some(p.publicKey(private));
    }

    /** `s`, the DH of the static key, and the payload, appended to `prefix`. */
    method WriteStatic(prefix: Bytes, payload: Bytes) returns (r: Reply)
      requires sym.Valid() && sym.p == p && re.Some?
      modifies this`step, sym, sym.cipher
      ensures sym.Valid() && (Model(), r) == StaticWritten(p, old(Model()), prefix, payload)
    {
      var sealedStatic := sym.EncryptAndHash(staticPublic);
      if sealedStatic.Err? {
        return Err(sealedStatic.error);
      }
      var z := Dh(p, staticPrivate, re.value);
      if z == None {
        return Err(RefusedDh);
      }
      sym.MixKey(z.value);
      r := WritePayload(prefix + sealedStatic.value, payload);
    }

    method WritePayload(prefix: Bytes, payload: Bytes) returns (r: Reply)
      requires sym.Valid() && sym.p == p
      modifies this`step, sym, sym.cipher
      ensures sym.Valid() && (Model(), r) == PayloadWritten(p, old(Model()), prefix, payload)
    {
      var ct := sym.EncryptAndHash(payload);
      if ct.Err? {
        return Err(ct.error);
      }
      step := step + 1;
      return Ok(prefix + ct.value);
    }

    method ReadStatic(sealedStatic: Bytes, sealedPayload: Bytes) returns (r: Reply)
      requires sym.Valid() && sym.p == p && ePrivate.Some?
      modifies this`step, this`remoteStatic, sym, sym.cipher
      ensures sym.Valid() && (Model(), r) == StaticRead(p, old(Model()), sealedStatic, sealedPayload)
    {
      var rs := sym.DecryptAndHash(sealedStatic);
      if rs.Err? {
        return Err(rs.error);
      }
      if |rs.value| != KEY_LEN {
        return Err(BadRemoteStatic);
      }
      remoteStatic := Some(rs.value);
      var z := Dh(p, ePrivate.value, rs.value);
      if z == None {
        return Err(RefusedDh);
      }
      sym.MixKey(z.value);
      r := ReadPayload(sealedPayload);
    }

    method ReadPayload(ciphertext: Bytes) returns (r: Reply)
      requires sym.Valid() && sym.p == p
      modifies this`step, sym, sym.cipher
      ensures sym.Valid() && (Model(), r) == PayloadRead(p, old(Model()), ciphertext)
    {
      r := sym.DecryptAndHash(ciphertext);
      if r.Ok? {
        step := step + 1;
      }
    }

    method WriteMessage(ephemeral: Bytes, payload: Bytes) returns (r: Reply)
      requires Valid()
      modifies this, sym, sym.cipher
      ensures (Model(), r) == Written(p, old(Model()), ephemeral, payload)
      ensures Valid()
    {
      hide PayloadWritten, StaticWritten, Hkdf2;
      if initiator && step == 0 {
        GenerateEphemeral(ephemeral);
        sym.MixHash(ePublic.value);
        r := WritePayload(ePublic.value, payload);
      } else if !initiator && step == 1 {
        GenerateEphemeral(ephemeral);
        sym.MixHash(ePublic.value);
        var z := Dh(p, ePrivate.value, re.value);
        if z == None {
          return Err(RefusedDh);
        }
        sym.MixKey(z.value);
        r := WriteStatic(ePublic.value, payload);
      } else if initiator && step == 2 {
        r := WriteStatic([], payload);
      } else {
        r := Err(OutOfOrder);
      }
    }

    method ReadMessage(message: Bytes) returns (r: Reply)
      requires Valid()
      modifies this, sym, sym.cipher
      ensures (Model(), r) == Read(p, old(Model()), message)
      ensures Valid()
    {
      hide PayloadRead, StaticRead, Hkdf2;
      if !initiator && step == 0 {
        if |message| < 32 {
          return Err(ShortMessage);
        }
        var peerE := message[..32];
        sym.MixHash(peerE);
        re := Some(peerE);
        r := ReadPayload(message[32..]);
      } else if initiator && step == 1 {
        if |message| < 32 + 48 {
          return Err(ShortMessage);
        }
        var peerE := message[..32];
        sym.MixHash(peerE);
        re := Some(peerE);
        var z := Dh(p, ePrivate.value, peerE);
        if z == None {
          return Err(RefusedDh);
        }
        sym.MixKey(z.value);
        r := ReadStatic(message[32..80], message[80..]);
      } else if !initiator && step == 2 {
        if |message| < 48 {
          return Err(ShortMessage);
        }
        r := ReadStatic(message[..48], message[48..]);
      } else {
        r := Err(OutOfOrder);
      }
    }

    /** The transport: the initiator sends under the first key, the responder under the second. */
    method Split() returns (r: Result<NoiseTransport, NoiseError>)
      requires Valid()
      ensures r.Ok? <==> IsFinished(Model())
      ensures r.Err? ==> r.error == NotFinished
      ensures r.Ok? ==> fresh(r.value) && fresh(r.value.sending) && fresh(r.value.receiving) && r.value.Valid()
      ensures r.Ok? ==> r.value.sending.Model() == Keyed(SendingKey(p, Model()))
      ensures r.Ok? ==> r.value.receiving.Model() == Keyed(ReceivingKey(p, Model()))
    {
      if step < 3 {
        return Err(NotFinished);
      }
      var c1, c2 := sym.Split();
      if initiator {
        var t := new NoiseTransport(p, c1, c2);
        return Ok(t);
      } else {
        var t := new NoiseTransport(p, c2, c1);
        return Ok(t);
      }
    }
  }
}
