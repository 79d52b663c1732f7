/**
 * The phone's session: one lock around sealing and writing, and a reader without a frame limit. Its
 * threads interleave at every lock, write and close, like the desktop's.
 */
module PhoneSessions {
  import opened Prelude
  import opened Crypto
  import opened CipherStates
  import opened Transports
  import opened Framing

  // ---- reading ---------------------------------------------------------------------

  datatype ReadError = EndOfStream | BadLength | ShorterThanTag | Refused(error: NoiseError) | Undecoded

  /** One `receive`: the cipher afterwards, the bytes still unread, and the plaintext or the error. */
  function PhoneReceived(p: Primitives, decodes: Decoder, c: Cipher, stream: Bytes): (r: (Cipher, Bytes, Result<Bytes, ReadError>))
    ensures r.2.Ok? ==> |r.1| < |stream|
  {
    if |stream| < 4 then (c, [], Err(EndOfStream)) else
    var word := FromBigEndian(stream[..4]);
    var rest := stream[4..];
    var negative := word >= 0x8000_0000;
    if negative || word == 0 || word > MAX_FRAME then (c, rest, Err(BadLength)) else
    if |rest| < word then (c, [], Err(EndOfStream)) else
    if word < 16 then (c, rest[word..], Err(ShorterThanTag)) else
    var (d, r) := Decrypted(p, c, [], rest[..word]);
    (d, rest[word..],
     match r
     case Err(e) => Err(Refused(e))
     case Ok(pt) => if decodes(pt) then Ok(pt) else Err(Undecoded))
  }

  function PhoneReceivedAll(p: Primitives, decodes: Decoder, c: Cipher, stream: Bytes): (r: seq<Bytes>)
    ensures |r| <= |stream|
    decreases |stream|
  {
    var (d, rest, r) := PhoneReceived(p, decodes, c, stream);
    match r
    case Err(_) => []
    case Ok(pt) => [pt] + PhoneReceivedAll(p, decodes, d, rest)
  }

  class SecureSession {
    const p: Primitives
    const decodes: Decoder
    const input: ByteSource
    const transport: NoiseTransport
    var isClosed: bool
    var output: Bytes

    ghost predicate Valid() {
      transport.p == p && transport.Valid()
    }

    constructor (p: Primitives, decodes: Decoder, input: ByteSource, transport: NoiseTransport)
      requires transport.p == p && transport.Valid()
      ensures Valid() && this.p == p && this.decodes == decodes && this.input == input && this.transport == transport
      ensures !isClosed && output == []
    {
      this.p, this.decodes, this.input, this.transport := p, decodes, input, transport;
      isClosed, output := false, [];
    }

    /** A send that runs to its end puts exactly the frame of one sealed message on the wire. */
    method Send(plaintext: Bytes) returns (sent: bool)
      requires Valid()
      modifies this, transport.sending
      ensures var (c, r) := TransportEncrypted(p, old(transport.sending.Model()), plaintext);
              && sent == (!old(isClosed) && r.Ok? && |r.value| <= MAX_FRAME)
              && output == (if sent then old(output) + Frame(r.value) else old(output))
              && transport.sending.Model() == (if old(isClosed) then old(transport.sending.Model()) else c)
              && isClosed == old(isClosed)
    {
      if isClosed {
        return false;
      }
      var r := transport.Encrypt(plaintext);
      if r.Err? {
        return false;
      }
      sent := WriteFrame(r.value);
    }

    method WriteFrame(data: Bytes) returns (ok: bool)
      modifies this`output
      ensures ok == (|data| <= MAX_FRAME) && output == (if ok then old(output) + Frame(data) else old(output))
    {
      if |data| > MAX_FRAME {
        return false;
      }
      output := output + BigEndian(|data|, 4);
      output := output + data;
      ok := true;
    }

    /** However the stream is segmented, one call behaves as on the whole byte string. */
    method Receive() returns (r: Result<Bytes, ReadError>)
      requires Valid()
      modifies input, transport.receiving
      ensures (transport.receiving.Model(), input.unread, r)
           == PhoneReceived(p, decodes, old(transport.receiving.Model()), old(input.unread))
    {
      var head := input.ReadExact(4);
      if head == None {
        return Err(EndOfStream);
      }
      var word := FromBigEndian(head.value);
      var negative := word >= 0x8000_0000;
      if negative || word == 0 || word > MAX_FRAME {
        return Err(BadLength);
      }
      var frame := input.ReadExact(word);
      if frame == None {
        return Err(EndOfStream);
      }
      if |frame.value| < 16 {
        return Err(ShorterThanTag);
      }
      var pt := transport.Decrypt(frame.value);
      if pt.Err? {
        return Err(Refused(pt.error));
      }
      if !decodes(pt.value) {
        return Err(Undecoded);
      }
      return Ok(pt.value);
    }
  }

  function UpTo(s: seq<Bytes>, n: nat): seq<Bytes> {
    if |s| <= n then s else s[..n]
  }

  /** From any bytes at all the desktop accepts what the phone accepts, up to its own frame limit. */
  lemma {:induction false} BothPlatformsReadAlike(p: Primitives, decodes: Decoder, rx: Receiver, stream: Bytes)
    requires rx.recvd <= rx.limit + 1
    ensures ReceivedAll(p, decodes, rx, stream) == UpTo(PhoneReceivedAll(p, decodes, rx.cipher, stream), rx.limit + 1 - rx.recvd)
    decreases |stream|
  {
    var (rx', rest, r) := Received(p, decodes, rx, stream);
    if r.Ok? {
      BothPlatformsReadAlike(p, decodes, rx', rest);
    }
  }

  // ---- many senders, one lock ----------------------------------------------------------------

  type Tid = nat

  datatype Pc = Idle | Waiting(plaintext: Bytes) | Holding(plaintext: Bytes) | Writing(frame: Bytes, done: nat)

  /**
   * The shared session. `messages` and `cts` are what has been sealed, in order; `acked` records how many
   * frames had been sealed at each successful return; `broken` and `torn` as on the desktop: the number of the
   * first frame whose write failed on an open socket, and whether bytes followed it.
   */
  datatype Session = Session(
    closed: bool,
    shut: bool,
    lock: Option<Tid>,
    cipher: Cipher,
    wire: Bytes,
    threads: seq<Pc>,
    messages: seq<Bytes>,
    cts: seq<Bytes>,
    acked: set<nat>,
    broken: Option<nat>,
    torn: bool)

  datatype Action =
    | Call(t: Tid, plaintext: Bytes)
    | Lock(t: Tid)
    | Encrypt(t: Tid)
    | WriteSome(t: Tid, count: nat)
    | Return(t: Tid)
    | WriteFails(t: Tid)
    | MarkClosed
    | CloseSocket

  function Open(key: Bytes, senders: nat): Session {
    Session(false, false, None, Keyed(key), [], seq(senders, _ => Idle), [], [], {}, None, false)
  }

  predicate Enabled(s: Session, a: Action) {
    match a
    case Call(t, _) => t < |s.threads| && s.threads[t].Idle?
    case Lock(t) => t < |s.threads| && s.threads[t].Waiting? && s.lock.None?
    case Encrypt(t) => t < |s.threads| && s.threads[t].Holding?
    case WriteSome(t, count) =>
      t < |s.threads| && s.threads[t].Writing? && !s.shut && 0 < count && s.threads[t].done + count <= |s.threads[t].frame|
    case Return(t) => t < |s.threads| && s.threads[t].Writing? && s.threads[t].done == |s.threads[t].frame|
    case WriteFails(t) => t < |s.threads| && s.threads[t].Writing? && s.threads[t].done < |s.threads[t].frame|
    case MarkClosed => true
    case CloseSocket => s.closed
  }

  function Sealed(p: Primitives, s: Session, t: Tid): Session
    requires t < |s.threads| && s.threads[t].Holding?
  {
    var plaintext := s.threads[t].plaintext;
    var (c, r) := TransportEncrypted(p, s.cipher, plaintext);
    match r
    case Err(_) => s.(lock := None, threads := s.threads[t := Idle])
    case Ok(ct) => s.(cipher := c, messages := s.messages + [plaintext], cts := s.cts + [ct],
                      threads := s.threads[t := Writing(Frame(ct), 0)])
  }

  function Wrote(s: Session, t: Tid, count: nat): Session
    requires t < |s.threads| && s.threads[t].Writing? && s.threads[t].done + count <= |s.threads[t].frame|
  {
    var Writing(frame, done) := s.threads[t];
    s.(wire := s.wire + frame[done..done + count],
       torn := s.torn || s.broken.Some?,
       threads := s.threads[t := Writing(frame, done + count)])
  }

  function Step(p: Primitives, s: Session, a: Action): Session
    requires Enabled(s, a)
  {
    match a
    case Call(t, plaintext) => if s.closed then s else s.(threads := s.threads[t := Waiting(plaintext)])
    case Lock(t) => s.(lock := Some(t), threads := s.threads[t := Holding(s.threads[t].plaintext)])
    case Encrypt(t) => Sealed(p, s, t)
    case WriteSome(t, count) => Wrote(s, t, count)
    case Return(t) => s.(lock := None, acked := s.acked + {|s.cts|}, threads := s.threads[t := Idle])
    case WriteFails(t) => s.(lock := None, threads := s.threads[t := Idle],
                             broken := if s.broken.None? && !s.shut then Some(|s.cts|) else s.broken)
    case MarkClosed => s.(closed := true)
    case CloseSocket => s.(shut := true)
  }

  ghost predicate Possible(p: Primitives, s: Session, run: seq<Action>)
    decreases |run|
  {
    run == [] || (Enabled(s, run[0]) && Possible(p, Step(p, s, run[0]), run[1..]))
  }

  ghost function After(p: Primitives, s: Session, run: seq<Action>): Session
    requires Possible(p, s, run)
    decreases |run|
  {
    if run == [] then s else After(p, Step(p, s, run[0]), run[1..])
  }

  // ---- the invariant -------------------------------------------------------------------------------

  /** Exactly the holder of the lock is between taking and releasing it. */
  ghost predicate OneHolder(threads: seq<Pc>, lock: Option<Tid>) {
    && (lock.Some? ==> lock.value < |threads|)
    && forall t :: 0 <= t < |threads| ==> (threads[t].Holding? || threads[t].Writing? <==> lock == Some(t))
  }

  /** Where the lock's holder stands. */
  function Holder(s: Session): Pc {
    if s.lock.Some? && s.lock.value < |s.threads| then s.threads[s.lock.value] else Idle
  }

  /** The wire against the sealed frames, given where the holder stands. */
  ghost predicate InOrder(pc: Pc, cts: seq<Bytes>, wire: Bytes, still: bool, failed: bool) {
    && wire <= FrameAll(cts)
    && (pc.Writing? ==>
          && cts != [] && pc.frame == Frame(cts[|cts| - 1]) && pc.done <= |pc.frame|
          && (pc.done > 0 || !still ==> wire == FrameAll(cts[..|cts| - 1]) + pc.frame[..pc.done])
          && (failed ==> pc.done == 0))
    && (!pc.Writing? && !still ==> wire == FrameAll(cts))
  }

  /** Nothing has been written since the socket was closed or a write on it failed. */
  predicate Still(s: Session) {
    s.shut || (s.broken.Some? && !s.torn)
  }

  ghost predicate Acknowledged(acked: set<nat>, cts: seq<Bytes>, wire: Bytes) {
    forall n :: n in acked ==> n <= |cts| && FrameAll(cts[..n]) <= wire
  }

  ghost predicate SealedInOrder(p: Primitives, key: Bytes, cipher: Cipher, messages: seq<Bytes>, cts: seq<Bytes>) {
    cipher.k == Some(key) && cipher.n == |cts| <= RESERVED && Sealing(p, key, 0, messages, cts)
  }

  ghost predicate Inv(p: Primitives, key: Bytes, s: Session) {
    && OneHolder(s.threads, s.lock)
    && SealedInOrder(p, key, s.cipher, s.messages, s.cts)
    && (!s.torn ==> InOrder(Holder(s), s.cts, s.wire, Still(s), s.broken.Some?) && Acknowledged(s.acked, s.cts, s.wire))
  }

  lemma AcknowledgedGrows(acked: set<nat>, cts: seq<Bytes>, wire: Bytes, ct: Bytes, more: Bytes)
    requires Acknowledged(acked, cts, wire)
    ensures Acknowledged(acked, cts + [ct], wire + more) && Acknowledged(acked, cts, wire + more)
    ensures Acknowledged(acked, cts + [ct], wire)
  {
    hide FrameAll;
    assert forall n: nat :: n <= |cts| ==> (cts + [ct])[..n] == cts[..n];
  }

  lemma QuietKeepsInv(p: Primitives, key: Bytes, s: Session, a: Action)
    requires Inv(p, key, s) && Enabled(s, a) && (a.Call? || a.Lock? || a.MarkClosed? || a.CloseSocket?)
    ensures Inv(p, key, Step(p, s, a))
  {
    hide SealedInOrder, Acknowledged, FrameAll, Frame;
  }

  lemma EncryptKeepsInv(p: Primitives, key: Bytes, s: Session, t: Tid)
    requires Inv(p, key, s) && Enabled(s, Encrypt(t))
    ensures Inv(p, key, Step(p, s, Encrypt(t)))
  {
    hide NonceBytes, FrameAll, Frame, Acknowledged;
    var plaintext := s.threads[t].plaintext;
    var (c, r) := TransportEncrypted(p, s.cipher, plaintext);
    if r.Ok? {
      SealingGrows(p, key, s.messages, s.cts, plaintext);
      hide Sealing;
      FrameAllGrows(s.cts, r.value);
      assert (s.cts + [r.value])[..|s.cts|] == s.cts;
      assert Frame(r.value)[..0] == [];
      assert FrameAll(s.cts) + [] == FrameAll(s.cts);
      if !s.torn {
        AcknowledgedGrows(s.acked, s.cts, s.wire, r.value, []);
      }
    }
  }

  lemma PieceOfFrame(before: Bytes, frame: Bytes, done: nat, count: nat)
    requires done + count <= |frame|
    ensures before + frame[..done] + frame[done..done + count] == before + frame[..done + count]
    ensures before + frame[..done + count] <= before + frame
  {
    assert frame[..done] + frame[done..done + count] == frame[..done + count];
  }

  lemma WritingStaysInOrder(frame: Bytes, done: nat, count: nat, cts: seq<Bytes>, wire: Bytes)
    requires InOrder(Writing(frame, done), cts, wire, false, false) && done + count <= |frame|
    ensures InOrder(Writing(frame, done + count), cts, wire + frame[done..done + count], false, false)
  {
    FrameAllLast(cts);
    hide FrameAll, Frame;
    PieceOfFrame(FrameAll(cts[..|cts| - 1]), frame, done, count);
  }

  lemma WriteKeepsInv(p: Primitives, key: Bytes, s: Session, t: Tid, count: nat)
    requires Inv(p, key, s) && Enabled(s, WriteSome(t, count))
    ensures Inv(p, key, Step(p, s, WriteSome(t, count)))
  {
    hide SealedInOrder, InOrder, Acknowledged;
    var Writing(frame, done) := s.threads[t];
    if !s.torn && s.broken.None? {
      AcknowledgedGrows(s.acked, s.cts, s.wire, [], frame[done..done + count]);
      WritingStaysInOrder(frame, done, count, s.cts, s.wire);
    }
  }

  lemma ReleaseKeepsInv(p: Primitives, key: Bytes, s: Session, a: Action)
    requires Inv(p, key, s) && Enabled(s, a) && (a.Return? || a.WriteFails?)
    ensures Inv(p, key, Step(p, s, a))
  {
    hide SealedInOrder, FrameAll, Frame;
    if !s.torn {
      var pc := s.threads[a.t];
      FrameAllLast(s.cts);
      FrameHasLength(s.cts[|s.cts| - 1]);
      assert s.cts[..|s.cts|] == s.cts;
      assert pc.frame[..|pc.frame|] == pc.frame;
    }
  }

  lemma FrameHasLength(ct: Bytes)
    ensures |Frame(ct)| == 4 + |ct|
  {
  }

  lemma StepKeepsInv(p: Primitives, key: Bytes, s: Session, a: Action)
    requires Inv(p, key, s) && Enabled(s, a)
    ensures Inv(p, key, Step(p, s, a))
  {
    match a
    case Encrypt(t) => EncryptKeepsInv(p, key, s, t);
    case WriteSome(t, count) => WriteKeepsInv(p, key, s, t, count);
    case Return(_) => ReleaseKeepsInv(p, key, s, a);
    case WriteFails(_) => ReleaseKeepsInv(p, key, s, a);
    case _ => QuietKeepsInv(p, key, s, a);
  }

  // ---- where the stream breaks -------------------------------------------------------------------

  /** As on the desktop: what is known of a broken frame, and of a frame in hand after it. */
  ghost predicate BreakMarked(s: Session) {
    && (s.torn ==> s.broken.Some?)
    && (forall n :: n in s.acked ==> n <= |s.cts|)
    && (s.broken.Some? ==> s.broken.value !in s.acked)
    && (Holder(s).Writing? ==> |s.cts| !in s.acked && (s.broken.Some? ==> s.broken.value < |s.cts|))
    && BreakOnWire(s.cts, s.wire, s.broken, s.torn)
  }

  lemma EncryptKeepsBreak(p: Primitives, key: Bytes, s: Session, t: Tid)
    requires Inv(p, key, s) && BreakMarked(s) && Enabled(s, Encrypt(t))
    ensures BreakMarked(Step(p, s, Encrypt(t)))
  {
    assert s.broken.Some? ==> s.broken.value <= |s.cts|;
    hide BreakOnWire, Frame, TransportEncrypted, SealedInOrder, InOrder, Acknowledged;
    var (_, r) := TransportEncrypted(p, s.cipher, s.threads[t].plaintext);
    if r.Ok? {
      BreakStaysOnWire(s.cts, s.wire, s.broken, s.torn, s.cts + [r.value], s.wire, s.torn);
    }
  }

  lemma WriteKeepsBreak(p: Primitives, key: Bytes, s: Session, t: Tid, count: nat)
    requires Inv(p, key, s) && BreakMarked(s) && Enabled(s, WriteSome(t, count))
    ensures BreakMarked(Step(p, s, WriteSome(t, count)))
  {
    hide BreakOnWire, Frame, SealedInOrder, InOrder, Acknowledged;
    var s' := Step(p, s, WriteSome(t, count));
    if s.broken.Some? {
      BreakStaysOnWire(s.cts, s.wire, s.broken, s.torn, s.cts, s'.wire, true);
    } else {
      NoBreakYet(s.cts, s'.wire, s'.torn);
    }
  }

  /** The first write that fails on an open socket leaves its frame cut short. */
  lemma BreakCutsLastFrame(cts: seq<Bytes>, wire: Bytes, pc: Pc)
    requires pc.Writing? && pc.done < |pc.frame| && InOrder(pc, cts, wire, false, false)
    ensures cts != [] && BreakOnWire(cts, wire, Some(|cts|), false)
  {
    FrameAllLast(cts);
    assert cts[..|cts|] == cts;
    hide FrameAll, Frame;
  }

  lemma ReleaseKeepsBreak(p: Primitives, key: Bytes, s: Session, a: Action)
    requires Inv(p, key, s) && BreakMarked(s) && Enabled(s, a) && (a.Return? || a.WriteFails?)
    ensures BreakMarked(Step(p, s, a))
  {
    hide SealedInOrder, InOrder, Acknowledged, BreakOnWire;
    if s.broken.None? && !s.shut && a.WriteFails? {
      BreakCutsLastFrame(s.cts, s.wire, s.threads[a.t]);
    }
  }

  lemma QuietKeepsBreak(p: Primitives, key: Bytes, s: Session, a: Action)
    requires Inv(p, key, s) && BreakMarked(s) && Enabled(s, a) && (a.Call? || a.Lock? || a.MarkClosed? || a.CloseSocket?)
    ensures BreakMarked(Step(p, s, a))
  {
    hide SealedInOrder, InOrder, Acknowledged, BreakOnWire;
  }

  lemma StepKeepsBreak(p: Primitives, key: Bytes, s: Session, a: Action)
    requires Inv(p, key, s) && BreakMarked(s) && Enabled(s, a)
    ensures BreakMarked(Step(p, s, a))
  {
    hide Inv, BreakMarked, Step;
    match a
    case Encrypt(t) => EncryptKeepsBreak(p, key, s, t);
    case WriteSome(t, count) => WriteKeepsBreak(p, key, s, t, count);
    case Return(_) => ReleaseKeepsBreak(p, key, s, a);
    case WriteFails(_) => ReleaseKeepsBreak(p, key, s, a);
    case _ => QuietKeepsBreak(p, key, s, a);
  }

  lemma {:induction false} RunKeepsInv(p: Primitives, key: Bytes, s: Session, run: seq<Action>)
    requires Inv(p, key, s) && BreakMarked(s) && Possible(p, s, run)
    ensures Inv(p, key, After(p, s, run)) && BreakMarked(After(p, s, run))
    decreases |run|
  {
    hide Inv, BreakMarked, Step, Enabled;
    if run != [] {
      StepKeepsInv(p, key, s, run[0]);
      StepKeepsBreak(p, key, s, run[0]);
      RunKeepsInv(p, key, Step(p, s, run[0]), run[1..]);
    }
  }

  lemma OpenIsInv(p: Primitives, key: Bytes, senders: nat)
    ensures Inv(p, key, Open(key, senders)) && BreakMarked(Open(key, senders))
  {
  }

  // ---- main results -------------------------------------------------------------------------------

  /** A reader whose limit the session has not reached: it reads like a phone. */
  function PhoneReader(key: Bytes, s: Session): Receiver {
    Receiver(Keyed(key), 0, |s.wire| + |s.cts|)
  }

  lemma PhoneHasNoLimit(p: Primitives, decodes: Decoder, key: Bytes, s: Session)
    ensures ReceivedAll(p, decodes, PhoneReader(key, s), s.wire) == PhoneReceivedAll(p, decodes, Keyed(key), s.wire)
    ensures ReceivedAll(p, decodes, NewReader(key), s.wire)
         == UpTo(PhoneReceivedAll(p, decodes, Keyed(key), s.wire), MAX_MESSAGES + 1)
  {
    hide ReceivedAll, PhoneReceivedAll;
    BothPlatformsReadAlike(p, decodes, PhoneReader(key, s), s.wire);
    BothPlatformsReadAlike(p, decodes, NewReader(key), s.wire);
  }

  lemma RunFacts(p: Primitives, key: Bytes, senders: nat, run: seq<Action>)
    requires Possible(p, Open(key, senders), run)
    ensures var s := After(p, Open(key, senders), run);
            && Inv(p, key, s) && BreakMarked(s)
            && |s.cts| == |s.messages| && Expecting(p, key, PhoneReader(key, s), s.messages, s.cts)
  {
    OpenIsInv(p, key, senders);
    RunKeepsInv(p, key, Open(key, senders), run);
    hide After, BreakMarked, Possible, InOrder, Acknowledged, OneHolder;
  }

  /**
   * Whatever the interleaving of the phone's senders: until bytes follow a broken frame the wire is a prefix
   * of the frames in nonce order, and a reader recovers exactly the messages whose frames are whole (up to the
   * first that does not decode), among them every one whose send reported success.
   */
  lemma AnyInterleavingIsReadInOrder(p: Primitives, key: Bytes, decodes: Decoder, senders: nat, run: seq<Action>)
    requires p.Lawful() && Possible(p, Open(key, senders), run)
    ensures var s := After(p, Open(key, senders), run);
            && |s.cts| == |s.messages|
            && (!s.torn ==>
                  var n := WholeFrames(s.cts, |s.wire|);
                  var read := Understood(decodes, s.messages[..n]);
                  && s.wire <= FrameAll(s.cts)
                  && PhoneReceivedAll(p, decodes, Keyed(key), s.wire) == read
                  && ReceivedAll(p, decodes, NewReader(key), s.wire) == UpTo(read, MAX_MESSAGES + 1)
                  && forall k :: k in s.acked ==> k <= n)
  {
    hide After, Possible, Primitives.Lawful, OneHolder, Sealing, FrameAll, WholeFrames, ReceivedAll, PhoneReceivedAll,
         Expecting, BreakMarked, Understood;
    RunFacts(p, key, senders, run);
    var s := After(p, Open(key, senders), run);
    if !s.torn {
      ReaderRecovers(p, key, decodes, PhoneReader(key, s), s.messages, s.cts, s.wire);
      PhoneHasNoLimit(p, decodes, key, s);
      forall k | k in s.acked
        ensures k <= WholeFrames(s.cts, |s.wire|)
      {
        WholeFramesMonotone(s.cts, k, |s.wire|);
      }
    }
  }

  /** In every run, torn or not, what was acknowledged before any frame broke is read whatever happened later. */
  lemma AckedBeforeBreakIsRead(p: Primitives, key: Bytes, decodes: Decoder, senders: nat, run: seq<Action>, k: nat)
    requires p.Lawful() && Possible(p, Open(key, senders), run)
    requires var s := After(p, Open(key, senders), run);
             k in s.acked && (s.broken.Some? ==> k < s.broken.value)
    ensures var s := After(p, Open(key, senders), run);
            && k <= |s.messages|
            && (AllDecode(decodes, s.messages[..k]) ==> s.messages[..k] <= PhoneReceivedAll(p, decodes, Keyed(key), s.wire))
  {
    hide Possible, After, ReceivedAll, Primitives.Lawful, Expecting, FrameAll, AllDecode, PhoneReceivedAll, Sealing;
    RunFacts(p, key, senders, run);
    var s := After(p, Open(key, senders), run);
    if s.broken.Some? {
      var b := s.broken.value;
      FramesArePrefix(s.cts[..b - 1], k);
      assert s.cts[..b - 1][..k] == s.cts[..k];
    }
    PhoneHasNoLimit(p, decodes, key, s);
    if AllDecode(decodes, s.messages[..k]) {
      WholeFramesAreRead(p, key, decodes, PhoneReader(key, s), s.messages, s.cts, s.wire, k);
    }
  }

  /**
   * With ideal AEAD a reader stops in front of the first broken frame, unless the bytes behind it happen to
   * complete it: an acknowledged send is then read exactly when it was sealed before that frame and it and
   * the messages before it decode.
   */
  lemma AckedIsReadExactlyBeforeBreak(p: Primitives, key: Bytes, decodes: Decoder, senders: nat, run: seq<Action>)
    requires p.Lawful() && Possible(p, Open(key, senders), run)
    requires var s := After(p, Open(key, senders), run);
             && s.broken.Some? && AuthenticStream(p, key, decodes, s.cts, PhoneReader(key, s), s.wire)
             && (s.torn ==> s.broken.value <= |s.cts| && !(FrameAll(s.cts[..s.broken.value]) <= s.wire))
    ensures var s := After(p, Open(key, senders), run);
            var read := PhoneReceivedAll(p, decodes, Keyed(key), s.wire);
            && 1 <= s.broken.value <= |s.messages|
            && read == Understood(decodes, s.messages[..s.broken.value - 1])
            && forall k :: k in s.acked ==>
                 k <= |s.messages| && (k <= |read| <==> k < s.broken.value && AllDecode(decodes, s.messages[..k]))
  {
    hide Possible, After, ReceivedAll, Primitives.Lawful, Expecting, FrameAll, AllDecode, AuthenticStream, Inv, Understood,
         PhoneReceivedAll;
    RunFacts(p, key, senders, run);
    var s := After(p, Open(key, senders), run);
    PhoneHasNoLimit(p, decodes, key, s);
    ReadUpToBreak(p, key, decodes, PhoneReader(key, s), s.messages, s.cts, s.wire, s.broken.value);
    forall k | k in s.acked && k < s.broken.value
      ensures k <= |PhoneReceivedAll(p, decodes, Keyed(key), s.wire)| <==> AllDecode(decodes, s.messages[..k])
    {
      UnderstoodExactly(decodes, s.messages[..s.broken.value - 1], k);
      assert s.messages[..s.broken.value - 1][..k] == s.messages[..k];
    }
  }
}
