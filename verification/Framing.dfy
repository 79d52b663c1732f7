/** Length-prefixed frames: what a reader recovers from the byte stream, however it is cut into segments. */
module Framing {
  import opened Prelude
  import opened Crypto
  import opened CipherStates
  import opened Transports

  const MAX_FRAME := 65535
  /** The session closes well before any nonce could wrap. */
  const MAX_MESSAGES: nat := 0x1_0000_0000_0000

  datatype RecvError = Io | FrameTooLarge(len: nat) | Exhausted | Noise(error: NoiseError) | Undecodable

  /** Which plaintexts `Message::decode` accepts. */
  type Decoder = Bytes -> bool

  function Frame(ct: Bytes): Bytes {
    BigEndian(|ct|, 4) + ct
  }

  function FrameAll(cts: seq<Bytes>): Bytes {
    if cts == [] then [] else FrameAll(cts[..|cts| - 1]) + Frame(cts[|cts| - 1])
  }

  /** The reading end: its cipher, its count of frames and the count at which it gives up. */
  datatype Receiver = Receiver(cipher: Cipher, recvd: nat, limit: nat)

  /** A reader that has seen nothing of this direction yet. */
  function NewReader(key: Bytes): Receiver {
    Receiver(Keyed(key), 0, MAX_MESSAGES)
  }

  /** One `recv`: the receiver afterwards, the bytes still unread, and the plaintext or the error. */
  function Received(p: Primitives, decodes: Decoder, rx: Receiver, stream: Bytes): (r: (Receiver, Bytes, Result<Bytes, RecvError>))
    ensures r.2.Ok? ==> |r.1| < |stream|
  {
    if |stream| < 4 then (rx, [], Err(Io)) else
    var len := FromBigEndian(stream[..4]);
    var rest := stream[4..];
    if !(16 <= len <= MAX_FRAME) then (rx, rest, Err(FrameTooLarge(len))) else
    if |rest| < len then (rx, [], Err(Io)) else
    var counted := rx.(recvd := rx.recvd + 1);
    if rx.recvd > rx.limit then (counted, rest[len..], Err(Exhausted)) else
    var (c, r) := Decrypted(p, rx.cipher, [], rest[..len]);
    (counted.(cipher := c), rest[len..],
     match r
     case Err(e) => Err(Noise(e))
     case Ok(pt) => if decodes(pt) then Ok(pt) else Err(Undecodable))
  }

  /** The reader thread: it keeps what it decrypts and decodes, and stops at the first error. */
  function ReceivedAll(p: Primitives, decodes: Decoder, rx: Receiver, stream: Bytes): seq<Bytes>
    decreases |stream|
  {
    var (rx', rest, r) := Received(p, decodes, rx, stream);
    match r
    case Err(_) => []
    case Ok(pt) => [pt] + ReceivedAll(p, decodes, rx', rest)
  }

  /** The plaintexts up to the first one that does not decode. */
  function Understood(decodes: Decoder, msgs: seq<Bytes>): (r: seq<Bytes>)
    ensures r <= msgs
  {
    if msgs == [] || !decodes(msgs[0]) then [] else [msgs[0]] + Understood(decodes, msgs[1..])
  }

  predicate AllDecode(decodes: Decoder, msgs: seq<Bytes>) {
    forall i :: 0 <= i < |msgs| ==> decodes(msgs[i])
  }

  lemma {:induction false} UnderstoodExactly(decodes: Decoder, msgs: seq<Bytes>, k: nat)
    requires k <= |msgs|
    ensures k <= |Understood(decodes, msgs)| <==> AllDecode(decodes, msgs[..k])
  {
    if k > 0 {
      UnderstoodExactly(decodes, msgs[1..], k - 1);
      var front, rest := msgs[..k], msgs[1..][..k - 1];
      assert front == [msgs[0]] + rest;
      assert forall i :: 0 <= i < |rest| ==> rest[i] == front[i + 1];
    }
  }

  /** How many frames lie wholly within the first `len` bytes of their concatenation. */
  function WholeFrames(cts: seq<Bytes>, len: nat): (n: nat)
    ensures n <= |cts|
  {
    if cts == [] || len < 4 + |cts[0]| then 0 else 1 + WholeFrames(cts[1..], len - 4 - |cts[0]|)
  }

  // ---- the reading thread --------------------------------------------------

  /** A connected stream that hands out its bytes in segments of its own choosing. */
  class ByteSource {
    var unread: Bytes

    constructor (bytes: Bytes)
      ensures unread == bytes
    {
      unread := bytes;
    }

    /** Between one and `max` bytes; none only at the end of the stream. */
    method Read(max: nat) returns (part: Bytes)
      requires max > 0
      modifies this
      ensures part + unread == old(unread)
      ensures |part| <= max && (part == [] <==> old(unread) == [])
    {
      if unread == [] {
        return [];
      }
      var n: nat :| 1 <= n <= max && n <= |unread|;
      part := unread[..n];
      unread := unread[n..];
    }

    method ReadExact(n: nat) returns (r: Option<Bytes>)
      modifies this
      ensures |old(unread)| >= n ==> r == Some(old(unread)[..n]) && unread == old(unread)[n..]
      ensures |old(unread)| < n ==> r == None && unread == []
    {
      var buf: Bytes := [];
      while |buf| < n
        invariant |buf| <= n && buf + unread == old(unread)
      {
        var part := Read(n - |buf|);
        if part == [] {
          assert buf == old(unread);
          return None;
        }
        ghost var before := buf;
        buf := buf + part;
        assert before + (part + unread) == buf + unread;
      }
      assert buf == old(unread)[..n];
      return Some(buf);
    }
  }

  class ChannelReader {
    const p: Primitives
    const decodes: Decoder
    const sock: ByteSource
    const noise: CipherState
    var recvd: nat

    ghost function Model(): Receiver
      reads this, noise
    {
      Receiver(noise.Model(), recvd, MAX_MESSAGES)
    }

    constructor (p: Primitives, decodes: Decoder, sock: ByteSource, noise: CipherState)
      requires noise.p == p
      ensures this.p == p && this.decodes == decodes && this.sock == sock && this.noise == noise && recvd == 0
    {
      this.p, this.decodes, this.sock, this.noise, this.recvd := p, decodes, sock, noise, 0;
    }

    /** However the stream is segmented, one call behaves as on the whole byte string. */
    method Recv() returns (r: Result<Bytes, RecvError>)
      requires noise.p == p
      modifies this, sock, noise
      ensures (Model(), sock.unread, r) == Received(p, decodes, old(Model()), old(sock.unread))
    {
      var head := sock.ReadExact(4);
      if head == None {
        return Err(Io);
      }
      var len := FromBigEndian(head.value);
      if len < 16 || len > MAX_FRAME {
        return Err(FrameTooLarge(len));
      }
      var ct := sock.ReadExact(len);
      if ct == None {
        return Err(Io);
      }
      recvd := recvd + 1;
      if recvd - 1 > MAX_MESSAGES {
        return Err(Exhausted);
      }
      var pt := noise.DecryptWithAd([], ct.value);
      if pt.Err? {
        return Err(Noise(pt.error));
      }
      if !decodes(pt.value) {
        return Err(Undecodable);
      }
      return Ok(pt.value);
    }

    /** The reader thread's loop: its outcome depends on the bytes only, not on their segmentation. */
    method RecvAll() returns (messages: seq<Bytes>)
      requires noise.p == p
      modifies this, sock, noise
      ensures messages == ReceivedAll(p, decodes, old(Model()), old(sock.unread))
    {
      messages := [];
      while true
        invariant messages + ReceivedAll(p, decodes, Model(), sock.unread) == ReceivedAll(p, decodes, old(Model()), old(sock.unread))
        decreases |sock.unread|
      {
        ghost var rx, stream := Model(), sock.unread;
        var r := Recv();
        if r.Err? {
          return;
        }
        assert ReceivedAll(p, decodes, rx, stream) == [r.value] + ReceivedAll(p, decodes, Model(), sock.unread);
        messages := messages + [r.value];
      }
    }
  }

  // ---- honest streams ------------------------------------------------------

  lemma {:induction false} FrameAllFront(cts: seq<Bytes>)
    requires cts != []
    ensures FrameAll(cts) == Frame(cts[0]) + FrameAll(cts[1..])
  {
    if |cts| == 1 {
      assert cts[..0] == [] && cts[1..] == [];
    } else {
      var init := cts[..|cts| - 1];
      FrameAllFront(init);
      assert init[1..] == cts[1..][..|cts| - 2];
      assert FrameAll(cts) == Frame(cts[0]) + FrameAll(init[1..]) + Frame(cts[|cts| - 1]);
    }
  }

  lemma FrameAllGrows(cts: seq<Bytes>, ct: Bytes)
    ensures FrameAll(cts + [ct]) == FrameAll(cts) + Frame(ct)
  {
    assert (cts + [ct])[..|cts|] == cts;
  }

  /** The last frame splits off the concatenation. */
  lemma FrameAllLast(cts: seq<Bytes>)
    requires cts != []
    ensures FrameAll(cts) == FrameAll(cts[..|cts| - 1]) + Frame(cts[|cts| - 1])
  {
  }

  lemma FrameSplits(ct: Bytes, more: Bytes)
    ensures var stream := Frame(ct) + more;
            && |stream| == 4 + |ct| + |more| && stream[..4] == BigEndian(|ct|, 4)
            && stream[4..][..|ct|] == ct && stream[4..][|ct|..] == more
  {
    var stream := Frame(ct) + more;
    assert stream[4..] == ct + more;
  }

  /** The receiver after one more frame that opened. */
  function Counted(rx: Receiver): Receiver {
    Receiver(Advance(rx.cipher), rx.recvd + 1, rx.limit)
  }

  function Verdict(decodes: Decoder, msg: Bytes): Result<Bytes, RecvError> {
    if decodes(msg) then Ok(msg) else Err(Undecodable)
  }

  lemma ReceivedFrame(p: Primitives, key: Bytes, decodes: Decoder, rx: Receiver, msg: Bytes, ct: Bytes, more: Bytes)
    requires p.Lawful() && rx.cipher.k == Some(key) && rx.cipher.n < RESERVED && rx.recvd <= rx.limit
    requires ct == p.seal(key, NonceBytes(rx.cipher.n), [], msg) && |msg| <= MAX_PLAINTEXT
    ensures Received(p, decodes, rx, Frame(ct) + more) == (Counted(rx), more, Verdict(decodes, msg))
  {
    hide Primitives.Lawful, BigEndian, FromBigEndian, Pow256, NonceBytes, Frame;
    SealLaw(p, key, NonceBytes(rx.cipher.n), [], msg);
    Pow256Values();
    BigEndianRoundTrip(|ct|, 4);
    FrameSplits(ct, more);
  }

  lemma ShortFrameIsIncomplete(p: Primitives, decodes: Decoder, rx: Receiver, ct: Bytes, stream: Bytes)
    requires 16 <= |ct| <= MAX_FRAME && |stream| < 4 + |ct| && stream <= Frame(ct)
    ensures Received(p, decodes, rx, stream).2 == Err(Io)
  {
    Pow256Values();
    BigEndianRoundTrip(|ct|, 4);
    hide BigEndian, FromBigEndian, Pow256, Decrypted;
    if |stream| >= 4 {
      assert stream[..4] == Frame(ct)[..4] == BigEndian(|ct|, 4);
    }
  }

  lemma CutInFirstFrame(cts: seq<Bytes>, stream: Bytes)
    requires cts != [] && stream <= FrameAll(cts) && |stream| <= 4 + |cts[0]|
    ensures stream <= Frame(cts[0])
  {
    FrameAllFront(cts);
    assert stream == FrameAll(cts)[..|stream|] == Frame(cts[0])[..|stream|];
  }

  lemma CutAfterFirstFrame(cts: seq<Bytes>, stream: Bytes)
    requires cts != [] && stream <= FrameAll(cts) && |stream| >= 4 + |cts[0]|
    ensures var rest := stream[4 + |cts[0]|..];
            stream == Frame(cts[0]) + rest && rest <= FrameAll(cts[1..])
  {
    FrameAllFront(cts);
    var size := 4 + |cts[0]|;
    assert stream[..size] == FrameAll(cts)[..size] == Frame(cts[0]);
    assert FrameAll(cts)[size..] == FrameAll(cts[1..]);
    assert stream[size..] == FrameAll(cts)[size..][..|stream| - size];
  }

  /** A reader about to see the seals of `msgs`, with room for all of them. */
  ghost predicate Expecting(p: Primitives, key: Bytes, rx: Receiver, msgs: seq<Bytes>, cts: seq<Bytes>) {
    && rx.cipher.k == Some(key)
    && Sealing(p, key, rx.cipher.n, msgs, cts)
    && rx.cipher.n + |msgs| <= RESERVED && rx.recvd + |msgs| <= rx.limit + 1
  }

  lemma FirstFrameCut(p: Primitives, key: Bytes, decodes: Decoder, rx: Receiver, msgs: seq<Bytes>, cts: seq<Bytes>, stream: Bytes)
    requires p.Lawful() && Expecting(p, key, rx, msgs, cts) && msgs != []
    requires stream <= FrameAll(cts) && |stream| < 4 + |cts[0]|
    ensures Received(p, decodes, rx, stream).2 == Err(Io)
  {
    hide Primitives.Lawful, Received, Frame, NonceBytes, FrameAll;
    SealingAt(p, key, rx.cipher.n, msgs, cts, 0);
    SealLaw(p, key, NonceBytes(rx.cipher.n + 0), [], msgs[0]);
    CutInFirstFrame(cts, stream);
    ShortFrameIsIncomplete(p, decodes, rx, cts[0], stream);
  }

  lemma ExpectingTail(p: Primitives, key: Bytes, rx: Receiver, msgs: seq<Bytes>, cts: seq<Bytes>)
    requires Expecting(p, key, rx, msgs, cts) && msgs != []
    ensures Expecting(p, key, Counted(rx), msgs[1..], cts[1..])
  {
    SealingTail(p, key, rx.cipher.n, msgs, cts);
    hide Sealing, NonceBytes;
  }

  lemma FirstFrameWhole(p: Primitives, key: Bytes, decodes: Decoder, rx: Receiver, msgs: seq<Bytes>, cts: seq<Bytes>, rest: Bytes)
    requires p.Lawful() && Expecting(p, key, rx, msgs, cts) && msgs != []
    ensures Received(p, decodes, rx, Frame(cts[0]) + rest) == (Counted(rx), rest, Verdict(decodes, msgs[0]))
  {
    hide Primitives.Lawful, Received, Frame, NonceBytes;
    SealingAt(p, key, rx.cipher.n, msgs, cts, 0);
    ReceivedFrame(p, key, decodes, rx, msgs[0], cts[0], rest);
  }

  lemma UnderstoodStep(decodes: Decoder, msg: Bytes, rest: seq<Bytes>)
    ensures Understood(decodes, [msg] + rest) == if decodes(msg) then [msg] + Understood(decodes, rest) else []
  {
    assert ([msg] + rest)[1..] == rest;
  }

  lemma FirstFrameRead(p: Primitives, key: Bytes, decodes: Decoder, rx: Receiver, msgs: seq<Bytes>, cts: seq<Bytes>, rest: Bytes)
    requires p.Lawful() && Expecting(p, key, rx, msgs, cts) && msgs != []
    ensures ReceivedAll(p, decodes, rx, Frame(cts[0]) + rest)
         == if decodes(msgs[0]) then [msgs[0]] + ReceivedAll(p, decodes, Counted(rx), rest) else []
  {
    FirstFrameWhole(p, key, decodes, rx, msgs, cts, rest);
    hide Primitives.Lawful, Received, Frame, Expecting;
  }

  lemma ExpectingLengths(p: Primitives, key: Bytes, rx: Receiver, msgs: seq<Bytes>, cts: seq<Bytes>)
    requires Expecting(p, key, rx, msgs, cts)
    ensures |cts| == |msgs|
  {
  }

  /**
   * From any cut of an honest stream the reader recovers exactly the wholly delivered messages, in order, up
   * to the first that does not decode.
   */
  lemma {:induction false} ReaderRecovers(
        p: Primitives, key: Bytes, decodes: Decoder, rx: Receiver, msgs: seq<Bytes>, cts: seq<Bytes>, stream: Bytes)
    requires p.Lawful() && Expecting(p, key, rx, msgs, cts)
    requires stream <= FrameAll(cts)
    ensures |msgs| == |cts| && ReceivedAll(p, decodes, rx, stream) == Understood(decodes, msgs[..WholeFrames(cts, |stream|)])
    decreases |msgs|
  {
    hide Primitives.Lawful, Received, ReceivedAll, Frame, Expecting, Understood;
    ExpectingLengths(p, key, rx, msgs, cts);
    if msgs == [] {
      assert stream == [];
      NothingRead(p, decodes, rx);
    } else if |stream| < 4 + |cts[0]| {
      FirstFrameCut(p, key, decodes, rx, msgs, cts, stream);
      FirstErrorEndsReading(p, decodes, rx, stream);
      assert msgs[..0] == [] == Understood(decodes, []);
    } else {
      hide FrameAll;
      var rest := stream[4 + |cts[0]|..];
      CutAfterFirstFrame(cts, stream);
      FirstFrameRead(p, key, decodes, rx, msgs, cts, rest);
      ExpectingTail(p, key, rx, msgs, cts);
      ReaderRecovers(p, key, decodes, Counted(rx), msgs[1..], cts[1..], rest);
      var n := WholeFrames(cts[1..], |rest|);
      assert msgs[..1 + n] == [msgs[0]] + msgs[1..][..n];
      UnderstoodStep(decodes, msgs[0], msgs[1..][..n]);
    }
  }

  lemma NothingRead(p: Primitives, decodes: Decoder, rx: Receiver)
    ensures ReceivedAll(p, decodes, rx, []) == Understood(decodes, []) == []
  {
  }

  lemma FirstErrorEndsReading(p: Primitives, decodes: Decoder, rx: Receiver, stream: Bytes)
    requires Received(p, decodes, rx, stream).2.Err?
    ensures ReceivedAll(p, decodes, rx, stream) == []
  {
    hide Received;
  }

  /** Whatever follows the honest frames, their messages are read, up to the first that does not decode. */
  lemma {:induction false} ReaderKeepsUp(
        p: Primitives, key: Bytes, decodes: Decoder, rx: Receiver, msgs: seq<Bytes>, cts: seq<Bytes>, stream: Bytes)
    requires p.Lawful() && Expecting(p, key, rx, msgs, cts)
    requires FrameAll(cts) <= stream
    ensures Understood(decodes, msgs) <= ReceivedAll(p, decodes, rx, stream)
    decreases |msgs|
  {
    hide Primitives.Lawful, Received, ReceivedAll, Frame, Expecting, FrameAll;
    ExpectingLengths(p, key, rx, msgs, cts);
    if msgs != [] {
      FrameAllFront(cts);
      FrontOfStream(cts[0], FrameAll(cts[1..]), stream);
      var rest := stream[4 + |cts[0]|..];
      FirstFrameRead(p, key, decodes, rx, msgs, cts, rest);
      ExpectingTail(p, key, rx, msgs, cts);
      ReaderKeepsUp(p, key, decodes, Counted(rx), msgs[1..], cts[1..], rest);
    }
  }

  lemma FrontOfStream(ct: Bytes, more: Bytes, stream: Bytes)
    requires Frame(ct) + more <= stream
    ensures 4 + |ct| <= |stream|
    ensures var rest := stream[4 + |ct|..];
            stream == Frame(ct) + rest && more <= rest
  {
    var size := 4 + |ct|;
    assert |Frame(ct)| == size;
    hide Frame;
    assert stream[..size] == (Frame(ct) + more)[..size] == Frame(ct);
    assert stream[size..][..|more|] == stream[..size + |more|][size..] == (Frame(ct) + more)[size..] == more;
  }

  lemma {:induction false} WholeFramesOfAll(cts: seq<Bytes>)
    ensures WholeFrames(cts, |FrameAll(cts)|) == |cts|
  {
    if cts != [] {
      FrameAllFront(cts);
      WholeFramesOfAll(cts[1..]);
    }
  }

  lemma {:induction false} WholeFramesMonotone(cts: seq<Bytes>, n: nat, len: nat)
    requires n <= |cts| && |FrameAll(cts[..n])| <= len
    ensures WholeFrames(cts, len) >= n
    decreases |cts|
  {
    if n > 0 {
      FrameAllFront(cts[..n]);
      assert cts[..n][1..] == cts[1..][..n - 1];
      WholeFramesMonotone(cts[1..], n - 1, len - 4 - |cts[0]|);
    }
  }

  // ---- any stream at all ---------------------------------------------------

  /** Ideal AEAD, asked only of the frames the reader accepts out of this stream. */
  ghost predicate AuthenticStream(p: Primitives, key: Bytes, decodes: Decoder, cts: seq<Bytes>, rx: Receiver, stream: Bytes)
    decreases |stream|
  {
    var (rx', rest, r) := Received(p, decodes, rx, stream);
    r.Ok? ==>
      && Authentic(p, key, cts, rx.cipher.n, stream[4..4 + FromBigEndian(stream[..4])])
      && AuthenticStream(p, key, decodes, cts, rx', rest)
  }

  lemma ReceivedOpens(p: Primitives, key: Bytes, decodes: Decoder, rx: Receiver, stream: Bytes)
    requires rx.cipher.k == Some(key) && Received(p, decodes, rx, stream).2.Ok?
    ensures var (rx', rest, r) := Received(p, decodes, rx, stream);
            var ct := stream[4..4 + FromBigEndian(stream[..4])];
            && p.open(key, NonceBytes(rx.cipher.n), [], ct) == Some(r.value) && rx'.cipher == Advance(rx.cipher)
            && stream == Frame(ct) + rest
  {
    var len := FromBigEndian(stream[..4]);
    assert stream[4..][..len] == stream[4..4 + len];
    FromBigEndianRoundTrip(stream[..4]);
    assert stream == stream[..4] + (stream[4..4 + len] + stream[4 + len..]);
    assert stream[4..][len..] == stream[4 + len..];
  }

  lemma NoFrames(cts: seq<Bytes>, stream: Bytes)
    ensures FrameAll(cts[..0]) <= stream
  {
  }

  lemma FirstIsAuthentic(p: Primitives, key: Bytes, decodes: Decoder, rx: Receiver, msgs: seq<Bytes>, cts: seq<Bytes>, stream: Bytes)
    requires p.Lawful() && rx.cipher.k == Some(key) && Sealing(p, key, 0, msgs, cts)
    requires AuthenticStream(p, key, decodes, cts, rx, stream) && Received(p, decodes, rx, stream).2.Ok?
    ensures var (rx', rest, r) := Received(p, decodes, rx, stream);
            var n := rx.cipher.n;
            && n < |msgs| == |cts| && decodes(msgs[n]) && stream == Frame(cts[n]) + rest && |rest| < |stream|
            && rx'.cipher.k == Some(key) && rx'.cipher.n == n + 1 && AuthenticStream(p, key, decodes, cts, rx', rest)
            && ReceivedAll(p, decodes, rx, stream) == [msgs[n]] + ReceivedAll(p, decodes, rx', rest)
  {
    ReceivedOpens(p, key, decodes, rx, stream);
    assert decodes(Received(p, decodes, rx, stream).2.value);
    var n := rx.cipher.n;
    hide Received, NonceBytes, Primitives.Lawful, Frame;
    SealingAt(p, key, 0, msgs, cts, n);
    SealLaw(p, key, NonceBytes(0 + n), [], msgs[n]);
  }

  lemma FrameInFront(cts: seq<Bytes>, n: nat, more: nat, rest: Bytes)
    requires n < |cts| && more <= |cts| - n - 1 && FrameAll(cts[n + 1..][..more]) <= rest
    ensures FrameAll(cts[n..][..1 + more]) <= Frame(cts[n]) + rest
  {
    hide FrameAll, Frame;
    var first := cts[n..][..1 + more];
    assert first[0] == cts[n] && first[1..] == cts[n + 1..][..more];
    FrameAllFront(first);
  }

  /**
   * Torn, replayed or forged bytes: the reader still accepts only a prefix of what was sealed, and only
   * what the stream really starts with.
   */
  lemma {:induction false} AnyStreamYieldsPrefix(
        p: Primitives, key: Bytes, decodes: Decoder, rx: Receiver, msgs: seq<Bytes>, cts: seq<Bytes>, stream: Bytes)
    requires p.Lawful() && rx.cipher.k == Some(key)
    requires Sealing(p, key, 0, msgs, cts) && rx.cipher.n <= |msgs|
    requires AuthenticStream(p, key, decodes, cts, rx, stream)
    ensures var n, read := rx.cipher.n, ReceivedAll(p, decodes, rx, stream);
            |cts| == |msgs| && read <= msgs[n..] && FrameAll(cts[n..][..|read|]) <= stream && AllDecode(decodes, read)
    decreases |stream|
  {
    hide Received, ReceivedAll, AuthenticStream, Primitives.Lawful, NonceBytes, FrameAll, Frame, Authentic, Advance;
    var (rx', rest, r) := Received(p, decodes, rx, stream);
    var n := rx.cipher.n;
    assert |cts| == |msgs|;
    hide Sealing;
    if r.Ok? {
      FirstIsAuthentic(p, key, decodes, rx, msgs, cts, stream);
      AnyStreamYieldsPrefix(p, key, decodes, rx', msgs, cts, rest);
      var more := ReceivedAll(p, decodes, rx', rest);
      FrameInFront(cts, n, |more|, rest);
      assert msgs[n..] == [msgs[n]] + msgs[n + 1..];
    } else {
      FirstErrorEndsReading(p, decodes, rx, stream);
      NoFrames(cts[n..], stream);
    }
  }

  lemma ExpectingFront(p: Primitives, key: Bytes, rx: Receiver, msgs: seq<Bytes>, cts: seq<Bytes>, k: nat)
    requires Expecting(p, key, rx, msgs, cts) && k <= |msgs|
    ensures |cts| == |msgs| && Expecting(p, key, rx, msgs[..k], cts[..k])
  {
    hide NonceBytes;
  }

  /** Whatever follows them, the first `k` messages are read if their frames begin the stream and they decode. */
  lemma WholeFramesAreRead(p: Primitives, key: Bytes, decodes: Decoder, rx: Receiver, msgs: seq<Bytes>, cts: seq<Bytes>, stream: Bytes, k: nat)
    requires p.Lawful() && Expecting(p, key, rx, msgs, cts) && k <= |msgs| == |cts|
    requires FrameAll(cts[..k]) <= stream && AllDecode(decodes, msgs[..k])
    ensures msgs[..k] <= ReceivedAll(p, decodes, rx, stream)
  {
    ExpectingFront(p, key, rx, msgs, cts, k);
    hide ReceivedAll, Primitives.Lawful, FrameAll, Expecting, Understood;
    ReaderKeepsUp(p, key, decodes, rx, msgs[..k], cts[..k], stream);
    UnderstoodExactly(decodes, msgs[..k], k);
    assert msgs[..k][..k] == msgs[..k];
  }

  /** What is read really begins the stream. */
  lemma ReadIsThere(decodes: Decoder, read: seq<Bytes>, msgs: seq<Bytes>, cts: seq<Bytes>, stream: Bytes, k: nat)
    requires k <= |read| <= |cts| && read <= msgs && FrameAll(cts[..|read|]) <= stream && AllDecode(decodes, read)
    ensures FrameAll(cts[..k]) <= stream && AllDecode(decodes, msgs[..k])
  {
    FramesArePrefix(cts[..|read|], k);
    hide FrameAll;
    assert cts[..|read|][..k] == cts[..k];
    assert msgs[..k] == read[..k];
  }

  /** Under ideal AEAD the reader reads the `k`-th message exactly when the stream begins with `k` frames that decode. */
  lemma ReadExactly(p: Primitives, key: Bytes, decodes: Decoder, rx: Receiver, msgs: seq<Bytes>, cts: seq<Bytes>, stream: Bytes, k: nat)
    requires p.Lawful() && rx.cipher.n == 0 && Expecting(p, key, rx, msgs, cts) && k <= |msgs|
    requires AuthenticStream(p, key, decodes, cts, rx, stream)
    ensures |cts| == |msgs| && ReceivedAll(p, decodes, rx, stream) <= msgs
    ensures k <= |ReceivedAll(p, decodes, rx, stream)| <==> FrameAll(cts[..k]) <= stream && AllDecode(decodes, msgs[..k])
  {
    AnyStreamYieldsPrefix(p, key, decodes, rx, msgs, cts, stream);
    hide Received, ReceivedAll, AuthenticStream, Sealing, Primitives.Lawful, FrameAll, Expecting, AllDecode, NonceBytes;
    var read := ReceivedAll(p, decodes, rx, stream);
    assert msgs[0..] == msgs && cts[0..] == cts;
    if k <= |read| {
      ReadIsThere(decodes, read, msgs, cts, stream, k);
    } else if FrameAll(cts[..k]) <= stream && AllDecode(decodes, msgs[..k]) {
      WholeFramesAreRead(p, key, decodes, rx, msgs, cts, stream, k);
    }
  }

  /** Under ideal AEAD the reader stops in front of frame `b` if the stream holds all before it, but not all of it. */
  lemma ReadUpToBreak(p: Primitives, key: Bytes, decodes: Decoder, rx: Receiver, msgs: seq<Bytes>, cts: seq<Bytes>, stream: Bytes, b: nat)
    requires p.Lawful() && rx.cipher.n == 0 && Expecting(p, key, rx, msgs, cts) && 1 <= b <= |msgs| == |cts|
    requires AuthenticStream(p, key, decodes, cts, rx, stream)
    requires FrameAll(cts[..b - 1]) <= stream && !(FrameAll(cts[..b]) <= stream)
    ensures ReceivedAll(p, decodes, rx, stream) == Understood(decodes, msgs[..b - 1])
  {
    hide ReceivedAll, AuthenticStream, Primitives.Lawful, FrameAll, Expecting, Understood;
    ReadExactly(p, key, decodes, rx, msgs, cts, stream, b);
    ExpectingFront(p, key, rx, msgs, cts, b - 1);
    ReaderKeepsUp(p, key, decodes, rx, msgs[..b - 1], cts[..b - 1], stream);
    var read, expected := ReceivedAll(p, decodes, rx, stream), Understood(decodes, msgs[..b - 1]);
    ReadExactly(p, key, decodes, rx, msgs, cts, stream, |read|);
    UnderstoodExactly(decodes, msgs[..b - 1], |read|);
    assert msgs[..b - 1][..|read|] == msgs[..|read|];
  }

  /** The first frames are the beginning of all frames. */
  lemma {:induction false} FramesArePrefix(cts: seq<Bytes>, n: nat)
    requires n <= |cts|
    ensures FrameAll(cts[..n]) <= FrameAll(cts)
    decreases |cts|
  {
    if n < |cts| {
      FramesArePrefix(cts[..|cts| - 1], n);
      assert cts[..|cts| - 1][..n] == cts[..n];
    } else {
      assert cts[..n] == cts;
    }
  }

  // ---- a stream with a broken frame --------------------------------------------

  /** Everything before a broken frame is on the wire; the frame itself is not, unless later bytes completed it. */
  ghost predicate BreakOnWire(cts: seq<Bytes>, wire: Bytes, broken: Option<nat>, torn: bool) {
    broken.Some? ==>
      && 1 <= broken.value <= |cts|
      && FrameAll(cts[..broken.value - 1]) <= wire
      && (!torn ==> !(FrameAll(cts[..broken.value]) <= wire))
  }

  lemma BreakStaysOnWire(cts: seq<Bytes>, wire: Bytes, broken: Option<nat>, torn: bool, cts': seq<Bytes>, wire': Bytes, torn': bool)
    requires BreakOnWire(cts, wire, broken, torn) && cts <= cts' && wire <= wire'
    requires torn' || (wire' == wire && !torn)
    ensures BreakOnWire(cts', wire', broken, torn')
  {
    hide FrameAll;
    if broken.Some? {
      assert cts'[..broken.value - 1] == cts[..broken.value - 1] && cts'[..broken.value] == cts[..broken.value];
    }
  }

  lemma NoBreakYet(cts: seq<Bytes>, wire: Bytes, torn: bool)
    ensures BreakOnWire(cts, wire, None, torn)
  {
  }
}
