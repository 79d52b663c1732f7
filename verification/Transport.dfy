/** The transport ciphers after the handshake, and what a receiver can be made to accept. */
module Transports {
  import opened Prelude
  import opened Crypto
  import opened CipherStates

  const MAX_MESSAGE := 65535
  const MAX_PLAINTEXT := MAX_MESSAGE - TAG_LEN

  /** A cipher that has just been given its transport key. */
  function Keyed(key: Bytes): Cipher {
    Rekeyed(Fresh(), Some(key))
  }

  function TransportEncrypted(p: Primitives, c: Cipher, plaintext: Bytes): (Cipher, Result<Bytes, NoiseError>) {
    if |plaintext| > MAX_PLAINTEXT then (c, Err(MessageTooLarge)) else Encrypted(p, c, [], plaintext)
  }

  class NoiseTransport {
    const p: Primitives
    const sending: CipherState
    const receiving: CipherState

    ghost predicate Valid() {
      sending != receiving && sending.p == p && receiving.p == p
    }

    constructor (p: Primitives, sending: CipherState, receiving: CipherState)
      requires sending != receiving && sending.p == p && receiving.p == p
      ensures Valid() && this.p == p && this.sending == sending && this.receiving == receiving
    {
      this.p, this.sending, this.receiving := p, sending, receiving;
    }

    method Encrypt(plaintext: Bytes) returns (r: Result<Bytes, NoiseError>)
      requires Valid()
      modifies sending
      ensures (sending.Model(), r) == TransportEncrypted(p, old(sending.Model()), plaintext)
    {
      if |plaintext| > MAX_PLAINTEXT {
        return Err(MessageTooLarge);
      }
      r := sending.EncryptWithAd([], plaintext);
    }

    method Decrypt(ciphertext: Bytes) returns (r: Result<Bytes, NoiseError>)
      requires Valid()
      modifies receiving
      ensures (receiving.Model(), r) == Decrypted(p, old(receiving.Model()), [], ciphertext)
    {
      r := receiving.DecryptWithAd([], ciphertext);
    }
  }

  // ---- one direction under attack ------------------------------------------

  datatype LinkEvent = Send(plaintext: Bytes) | Deliver(ciphertext: Bytes)

  /** Both ends of one direction, with what was sent, its ciphertexts, and what the receiver accepted. */
  datatype Link = Link(sender: Cipher, receiver: Cipher, sent: seq<Bytes>, ciphertexts: seq<Bytes>, accepted: seq<Bytes>)

  function LinkStart(key: Bytes): Link {
    Link(Keyed(key), Keyed(key), [], [], [])
  }

  function LinkStep(p: Primitives, l: Link, e: LinkEvent): Link {
    match e
    case Send(plaintext) =>
      var (c, r) := TransportEncrypted(p, l.sender, plaintext);
      (match r
       case Err(_) => l
       case Ok(ct) => l.(sender := c, sent := l.sent + [plaintext], ciphertexts := l.ciphertexts + [ct]))
    case Deliver(ciphertext) =>
      var (c, r) := Decrypted(p, l.receiver, [], ciphertext);
      (match r
       case Err(_) => l.(receiver := c)
       case Ok(pt) => l.(receiver := c, accepted := l.accepted + [pt]))
  }

  function LinkRun(p: Primitives, l: Link, events: seq<LinkEvent>): Link
    decreases |events|
  {
    if events == [] then l else LinkRun(p, LinkStep(p, l, events[0]), events[1..])
  }

  /** Ideal AEAD at one delivery: what opens under nonce `n` is what the sender sealed under `n`. */
  ghost predicate Authentic(p: Primitives, key: Bytes, ciphertexts: seq<Bytes>, n: nat, ct: Bytes) {
    p.open(key, NonceBytes(n), [], ct).Some? ==> n < |ciphertexts| && ct == ciphertexts[n]
  }

  /** Ideal AEAD, asked only of the deliveries this run makes. */
  ghost predicate AuthenticRun(p: Primitives, key: Bytes, l: Link, events: seq<LinkEvent>)
    decreases |events|
  {
    events == [] ||
    (&& (events[0].Deliver? ==> Authentic(p, key, l.ciphertexts, l.receiver.n, events[0].ciphertext))
     && AuthenticRun(p, key, LinkStep(p, l, events[0]), events[1..]))
  }

  /** `cts` are the seals of `msgs` under consecutive nonces from `n` on. */
  ghost predicate Sealing(p: Primitives, key: Bytes, n: nat, msgs: seq<Bytes>, cts: seq<Bytes>) {
    && |msgs| == |cts|
    && (forall j :: 0 <= j < |msgs| ==> cts[j] == p.seal(key, NonceBytes(n + j), [], msgs[j]) && |msgs[j]| <= MAX_PLAINTEXT)
  }

  lemma SealingAt(p: Primitives, key: Bytes, n: nat, msgs: seq<Bytes>, cts: seq<Bytes>, j: nat)
    requires Sealing(p, key, n, msgs, cts) && j < |msgs|
    ensures cts[j] == p.seal(key, NonceBytes(n + j), [], msgs[j]) && |msgs[j]| <= MAX_PLAINTEXT
  {
  }

  lemma SealingGrows(p: Primitives, key: Bytes, msgs: seq<Bytes>, cts: seq<Bytes>, msg: Bytes)
    requires Sealing(p, key, 0, msgs, cts) && |msg| <= MAX_PLAINTEXT
    ensures Sealing(p, key, 0, msgs + [msg], cts + [p.seal(key, NonceBytes(|msgs|), [], msg)])
  {
    hide NonceBytes;
  }

  lemma SealingTail(p: Primitives, key: Bytes, n: nat, msgs: seq<Bytes>, cts: seq<Bytes>)
    requires Sealing(p, key, n, msgs, cts) && msgs != []
    ensures Sealing(p, key, n + 1, msgs[1..], cts[1..])
  {
    hide NonceBytes;
    forall j | 0 <= j < |msgs| - 1
      ensures cts[1..][j] == p.seal(key, NonceBytes(n + 1 + j), [], msgs[1..][j])
    {
      assert cts[j + 1] == p.seal(key, NonceBytes(n + (j + 1)), [], msgs[j + 1]);
    }
  }

  ghost predicate LinkInv(p: Primitives, key: Bytes, l: Link) {
    && l.sender.k == l.receiver.k == Some(key)
    && |l.sent| == l.sender.n <= RESERVED
    && |l.accepted| == l.receiver.n <= RESERVED
    && Sealing(p, key, 0, l.sent, l.ciphertexts)
    && l.accepted <= l.sent
    && NonceDiscipline(l.sender)
  }

  lemma SendKeepsInv(p: Primitives, key: Bytes, l: Link, plaintext: Bytes)
    requires LinkInv(p, key, l)
    ensures LinkInv(p, key, LinkStep(p, l, Send(plaintext)))
  {
    hide NonceDiscipline, NonceBytes;
    assert |l.ciphertexts| == |l.sent|;
    hide Sealing;
    CallsKeepDiscipline(p, l.sender, [], plaintext);
    if |plaintext| <= MAX_PLAINTEXT {
      SealingGrows(p, key, l.sent, l.ciphertexts, plaintext);
    }
  }

  lemma DeliverKeepsInv(p: Primitives, key: Bytes, l: Link, ct: Bytes)
    requires p.Lawful() && LinkInv(p, key, l) && Authentic(p, key, l.ciphertexts, l.receiver.n, ct)
    ensures LinkInv(p, key, LinkStep(p, l, Deliver(ct)))
  {
    hide Primitives.Lawful, NonceDiscipline, NonceBytes;
    var n := l.receiver.n;
    assert |l.ciphertexts| == |l.sent|;
    hide Sealing;
    if n < |l.sent| {
      SealingAt(p, key, 0, l.sent, l.ciphertexts, n);
      SealLaw(p, key, NonceBytes(0 + n), [], l.sent[n]);
      assert l.sent[..n + 1] == l.sent[..n] + [l.sent[n]];
    }
  }

  lemma LinkStepKeepsInv(p: Primitives, key: Bytes, l: Link, e: LinkEvent)
    requires p.Lawful() && LinkInv(p, key, l)
    requires e.Deliver? ==> Authentic(p, key, l.ciphertexts, l.receiver.n, e.ciphertext)
    ensures LinkInv(p, key, LinkStep(p, l, e))
  {
    hide LinkInv, LinkStep;
    match e {
      case Send(plaintext) => SendKeepsInv(p, key, l, plaintext);
      case Deliver(ct) => DeliverKeepsInv(p, key, l, ct);
    }
  }

  lemma {:induction false} LinkRunKeepsInv(p: Primitives, key: Bytes, l: Link, events: seq<LinkEvent>)
    requires p.Lawful() && LinkInv(p, key, l) && AuthenticRun(p, key, l, events)
    ensures LinkInv(p, key, LinkRun(p, l, events))
    decreases |events|
  {
    if events != [] {
      LinkStepKeepsInv(p, key, l, events[0]);
      LinkRunKeepsInv(p, key, LinkStep(p, l, events[0]), events[1..]);
    }
  }

  /**
   * Replay, reordering, loss, forgery: whatever is delivered and whenever, the accepted plaintexts are a
   * prefix of those sent, and the sender never reused a nonce.
   */
  lemma AcceptedIsPrefixOfSent(p: Primitives, key: Bytes, events: seq<LinkEvent>)
    requires p.Lawful() && AuthenticRun(p, key, LinkStart(key), events)
    ensures var l := LinkRun(p, LinkStart(key), events);
            && l.accepted <= l.sent
            && NonceDiscipline(l.sender)
            && |l.accepted| == l.receiver.n
  {
    LinkRunKeepsInv(p, key, LinkStart(key), events);
  }
}
