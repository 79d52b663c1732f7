/**
 * Many sender threads over one encrypted channel. Lock acquisition, sealing, every partial socket write,
 * release and closing are separate steps, so a run is any interleaving of them.
 */
module Channels {
  import opened Prelude
  import opened Crypto
  import opened CipherStates
  import opened Transports
  import opened Framing

  type Tid = nat

  datatype Owner = SenderThread(t: Tid) | ReaderThread

  /**
   * Where one sender stands. `ticket` is the index of its plaintext in `accepted`; `sealed` is its frame.
   */
  datatype Pc = Idle
              | WantsNoise(ticket: nat)
              | HoldsNoise(ticket: nat)
              | Sealed(frame: Bytes)
              | Writing(frame: Bytes, done: nat)

  /**
   * The shared session. History: `accepted` are the plaintexts past `send`'s checks, `order` the tickets in
   * sealing order, `cts` their ciphertexts, `acked` how many frames had been sealed at each successful return
   * (the number of the frame sent), `broken` the number of the first frame whose write failed while the socket
   * was open, and `torn` whether bytes followed that.
   */
  datatype Channel = Channel(
    closed: bool,
    shut: bool,
    sentCount: nat,
    noise: Option<Owner>,
    writer: Option<Tid>,
    cipher: Cipher,
    wire: Bytes,
    threads: Threads,
    accepted: seq<Bytes>,
    order: seq<nat>,
    cts: seq<Bytes>,
    acked: set<nat>,
    broken: Option<nat>,
    torn: bool)

  datatype Action = Call(t: Tid, plaintext: Bytes)
                  | LockNoise(t: Tid)
                  | SealMessage(t: Tid)
                  | LockWriter(t: Tid)
                  | WriteSome(t: Tid, count: nat)
                  | Return(t: Tid)
                  | WriteFails(t: Tid)
                  | ReaderLocks
                  | ReaderUnlocks
                  | MarkClosed
                  | ShutDown

  type Threads = seq<Pc>

  /** A fresh session with any number of sender threads. */
  function Open(key: Bytes, senders: nat): Channel {
    Channel(false, false, 0, None, None, Keyed(key), [], seq(senders, _ => Idle), [], [], [], {}, None, false)
  }

  /** The thread that takes a step, if a sender does. */
  function Mover(a: Action): Option<Tid> {
    match a
    case ReaderLocks => None
    case ReaderUnlocks => None
    case MarkClosed => None
    case ShutDown => None
    case _ => Some(a.t)
  }

  predicate Enabled(c: Channel, a: Action) {
    && (Mover(a).Some? ==> Mover(a).value < |c.threads|)
    && match a
       case Call(t, _) => c.threads[t].Idle?
       case LockNoise(t) => c.threads[t].WantsNoise? && c.noise.None?
       case SealMessage(t) => c.threads[t].HoldsNoise? && c.threads[t].ticket < |c.accepted|
       case LockWriter(t) => c.threads[t].Sealed? && c.writer.None?
       case WriteSome(t, count) =>
         c.threads[t].Writing? && !c.shut && 0 < count && c.threads[t].done + count <= |c.threads[t].frame|
       case Return(t) => c.threads[t].Writing? && c.threads[t].done == |c.threads[t].frame|
       case WriteFails(t) => c.threads[t].Writing? && c.threads[t].done < |c.threads[t].frame|
       case ReaderLocks => c.noise.None?
       case ReaderUnlocks => c.noise == Some(ReaderThread)
       case MarkClosed => true
       case ShutDown => c.closed && c.writer.None?
  }

  /** `send` up to its first lock: refused when closed, too long or exhausted; otherwise a ticket is drawn. */
  function Called(c: Channel, t: Tid, plaintext: Bytes): Channel
    requires t < |c.threads|
  {
    if c.closed || |plaintext| > MAX_PLAINTEXT then c
    else if c.sentCount > MAX_MESSAGES then c.(sentCount := c.sentCount + 1)
    else c.(sentCount := c.sentCount + 1,
            accepted := c.accepted + [plaintext],
            threads := c.threads[t := WantsNoise(|c.accepted|)])
  }

  function NoiseLocked(c: Channel, t: Tid): Channel
    requires t < |c.threads| && c.threads[t].WantsNoise?
  {
    c.(noise := Some(SenderThread(t)), threads := c.threads[t := HoldsNoise(c.threads[t].ticket)])
  }

  function MessageSealed(p: Primitives, c: Channel, t: Tid): Channel
    requires t < |c.threads| && c.threads[t].HoldsNoise? && c.threads[t].ticket < |c.accepted|
  {
    var ticket := c.threads[t].ticket;
    var (cipher, r) := TransportEncrypted(p, c.cipher, c.accepted[ticket]);
    match r
    case Err(_) => c.(noise := None, threads := c.threads[t := Idle])
    case Ok(ct) => c.(cipher := cipher, order := c.order + [ticket], cts := c.cts + [ct],
                      threads := c.threads[t := Sealed(Frame(ct))])
  }

  function WriterLocked(c: Channel, t: Tid): Channel
    requires t < |c.threads| && c.threads[t].Sealed?
  {
    c.(writer := Some(t), threads := c.threads[t := Writing(c.threads[t].frame, 0)])
  }

  function BytesWritten(c: Channel, t: Tid, count: nat): Channel
    requires t < |c.threads| && c.threads[t].Writing? && c.threads[t].done + count <= |c.threads[t].frame|
  {
    var Writing(frame, done) := c.threads[t];
    c.(wire := c.wire + frame[done..done + count],
       torn := c.torn || c.broken.Some?,
       threads := c.threads[t := Writing(frame, done + count)])
  }

  function Returned(c: Channel, t: Tid): Channel
    requires t < |c.threads|
  {
    c.(noise := None, writer := None, acked := c.acked + {|c.cts|}, threads := c.threads[t := Idle])
  }

  function WriteFailed(c: Channel, t: Tid): Channel
    requires t < |c.threads|
  {
    c.(noise := None, writer := None, threads := c.threads[t := Idle],
       broken := if c.broken.None? && !c.shut then Some(|c.cts|) else c.broken)
  }

  function Step(p: Primitives, c: Channel, a: Action): Channel
    requires Enabled(c, a)
  {
    match a
    case Call(t, plaintext) => Called(c, t, plaintext)
    case LockNoise(t) => NoiseLocked(c, t)
    case SealMessage(t) => MessageSealed(p, c, t)
    case LockWriter(t) => WriterLocked(c, t)
    case WriteSome(t, count) => BytesWritten(c, t, count)
    case Return(t) => Returned(c, t)
    case WriteFails(t) => WriteFailed(c, t)
    case ReaderLocks => c.(noise := Some(ReaderThread))
    case ReaderUnlocks => c.(noise := None)
    case MarkClosed => c.(closed := true)
    case ShutDown => c.(shut := true)
  }

  /** `run` is an interleaving the locks allow. */
  ghost predicate Possible(p: Primitives, c: Channel, run: seq<Action>)
    decreases |run|
  {
    run == [] || (Enabled(c, run[0]) && Possible(p, Step(p, c, run[0]), run[1..]))
  }

  ghost function After(p: Primitives, c: Channel, run: seq<Action>): Channel
    requires Possible(p, c, run)
    decreases |run|
  {
    if run == [] then c else After(p, Step(p, c, run[0]), run[1..])
  }

  /** The plaintexts in the order their nonces were assigned. */
  function Messages(c: Channel): (s: seq<Bytes>)
    requires forall j :: 0 <= j < |c.order| ==> c.order[j] < |c.accepted|
    ensures |s| == |c.order|
  {
    seq(|c.order|, j requires 0 <= j < |c.order| => c.accepted[c.order[j]])
  }

  // ---- the invariant ---------------------------------------------------------

  predicate Waiting(pc: Pc) {
    pc.WantsNoise? || pc.HoldsNoise?
  }

  predicate Carrying(pc: Pc) {
    pc.Sealed? || pc.Writing?
  }

  ghost predicate LocksHeld(threads: Threads, noise: Option<Owner>, writer: Option<Tid>) {
    && (forall t :: 0 <= t < |threads| ==> ((threads[t].HoldsNoise? || Carrying(threads[t])) <==> noise == Some(SenderThread(t))))
    && (forall t :: 0 <= t < |threads| ==> (threads[t].Writing? <==> writer == Some(t)))
  }

  /** Every accepted plaintext has one ticket, waiting in one thread or sealed once. */
  ghost predicate TicketsUnique(threads: Threads, accepted: seq<Bytes>, order: seq<nat>) {
    && (forall j :: 0 <= j < |order| ==> order[j] < |accepted|)
    && (forall i, j :: 0 <= i < j < |order| ==> order[i] != order[j])
    && (forall t :: 0 <= t < |threads| && Waiting(threads[t]) ==> threads[t].ticket < |accepted| && threads[t].ticket !in order)
    && (forall t, u :: 0 <= t < u < |threads| && Waiting(threads[t]) && Waiting(threads[u]) ==>
          threads[t].ticket != threads[u].ticket)
  }

  ghost predicate Bounded(accepted: seq<Bytes>, sentCount: nat) {
    && |accepted| <= sentCount && |accepted| <= MAX_MESSAGES + 1
    && (forall j :: 0 <= j < |accepted| ==> |accepted[j]| <= MAX_PLAINTEXT)
  }

  ghost predicate NoncesInOrder(p: Primitives, key: Bytes, cipher: Cipher, accepted: seq<Bytes>, order: seq<nat>, cts: seq<Bytes>) {
    && cipher.k == Some(key) && cipher.n == |cts| == |order|
    && (forall j :: 0 <= j < |order| ==>
          order[j] < |accepted| && cts[j] == p.seal(key, NonceBytes(j), [], accepted[order[j]]))
  }

  /** Nothing has been written since the socket was shut or a write on it failed. */
  predicate Still(c: Channel) {
    c.shut || (c.broken.Some? && !c.torn)
  }

  /** A sealed frame in hand is the last one sealed; nothing of it is on a wire that stands still. */
  ghost predicate CarriesLast(threads: Threads, cts: seq<Bytes>, still: bool) {
    && (forall t :: 0 <= t < |threads| && Carrying(threads[t]) ==> cts != [] && threads[t].frame == Frame(cts[|cts| - 1]))
    && (forall t :: 0 <= t < |threads| && threads[t].Writing? ==>
          threads[t].done <= |threads[t].frame| && (still ==> threads[t].done == 0))
  }

  /** The part of its frame that a thread has put on the wire. */
  function OnWire(pc: Pc): Bytes {
    if pc.Writing? && pc.done <= |pc.frame| then pc.frame[..pc.done] else []
  }

  /** The wire is the frames in nonce order, the last one perhaps partial. */
  ghost predicate WireInOrder(threads: Threads, cts: seq<Bytes>, wire: Bytes, still: bool) {
    && (still ==> wire <= FrameAll(cts))
    && (!still ==>
          && (forall t :: 0 <= t < |threads| && Carrying(threads[t]) ==>
                cts != [] && wire == FrameAll(cts[..|cts| - 1]) + OnWire(threads[t]))
          && ((forall t :: 0 <= t < |threads| ==> !Carrying(threads[t])) ==> wire == FrameAll(cts)))
  }

  /** A send that reported success has its whole frame on the wire. */
  ghost predicate AcksOnWire(acked: set<nat>, cts: seq<Bytes>, wire: Bytes) {
    forall n :: n in acked ==> n <= |cts| && FrameAll(cts[..n]) <= wire
  }

  /** The order holds unless bytes followed a failed write. */
  ghost predicate Inv(p: Primitives, key: Bytes, c: Channel) {
    && LocksHeld(c.threads, c.noise, c.writer)
    && Bounded(c.accepted, c.sentCount)
    && TicketsUnique(c.threads, c.accepted, c.order)
    && NoncesInOrder(p, key, c.cipher, c.accepted, c.order, c.cts)
    && CarriesLast(c.threads, c.cts, Still(c))
    && (!c.torn ==> WireInOrder(c.threads, c.cts, c.wire, Still(c)) && AcksOnWire(c.acked, c.cts, c.wire))
  }

  /** The broken frame was never reported as sent; a frame in hand comes after it and has not been reported. */
  ghost predicate BreakMarked(c: Channel) {
    && (c.torn ==> c.broken.Some?)
    && (forall n :: n in c.acked ==> n <= |c.cts|)
    && (c.broken.Some? ==> c.broken.value !in c.acked)
    && (forall t :: 0 <= t < |c.threads| && Carrying(c.threads[t]) ==>
          |c.cts| !in c.acked && (c.broken.Some? ==> c.broken.value < |c.cts|))
    && BreakOnWire(c.cts, c.wire, c.broken, c.torn)
  }

  predicate HoldsNoiseLock(pc: Pc) {
    pc.HoldsNoise? || Carrying(pc)
  }

  // ---- how each part of the invariant moves when one thread moves ----------------

  /** What the two locks say about one thread and about the rest. */
  lemma LockFacts(threads: Threads, noise: Option<Owner>, writer: Option<Tid>, t: Tid)
    requires t < |threads| && LocksHeld(threads, noise, writer)
    ensures HoldsNoiseLock(threads[t]) <==> noise == Some(SenderThread(t))
    ensures threads[t].Writing? <==> writer == Some(t)
    ensures HoldsNoiseLock(threads[t]) ==> forall u :: 0 <= u < |threads| && Carrying(threads[u]) ==> u == t
    ensures threads[t].HoldsNoise? ==> forall u :: 0 <= u < |threads| ==> !Carrying(threads[u])
    ensures noise.None? ==> forall u :: 0 <= u < |threads| ==> !Carrying(threads[u])
    ensures writer.None? ==> forall u :: 0 <= u < |threads| ==> !threads[u].Writing?
    ensures threads[t].Writing? ==> forall u :: 0 <= u < |threads| && threads[u].Writing? ==> u == t
  {
  }

  lemma LocksMove(threads: Threads, noise: Option<Owner>, writer: Option<Tid>, t: Tid, pc: Pc, noise': Option<Owner>, writer': Option<Tid>)
    requires t < |threads| && LocksHeld(threads, noise, writer)
    requires noise' == noise || (noise.None? && noise' == Some(SenderThread(t))) || (noise == Some(SenderThread(t)) && noise'.None?)
    requires writer' == writer || (writer.None? && writer' == Some(t)) || (writer == Some(t) && writer'.None?)
    requires HoldsNoiseLock(pc) <==> noise' == Some(SenderThread(t))
    requires pc.Writing? <==> writer' == Some(t)
    ensures LocksHeld(threads[t := pc], noise', writer')
  {
  }

  lemma TicketMoves(threads: Threads, accepted: seq<Bytes>, order: seq<nat>, t: Tid, pc: Pc)
    requires t < |threads| && TicketsUnique(threads, accepted, order)
    requires Waiting(pc) ==> Waiting(threads[t]) && pc.ticket == threads[t].ticket
    ensures TicketsUnique(threads[t := pc], accepted, order)
  {
  }

  lemma TicketIssued(threads: Threads, accepted: seq<Bytes>, order: seq<nat>, t: Tid, plaintext: Bytes)
    requires t < |threads| && TicketsUnique(threads, accepted, order) && threads[t].Idle?
    ensures TicketsUnique(threads[t := WantsNoise(|accepted|)], accepted + [plaintext], order)
  {
  }

  lemma TicketSealed(threads: Threads, accepted: seq<Bytes>, order: seq<nat>, t: Tid, pc: Pc)
    requires t < |threads| && TicketsUnique(threads, accepted, order) && Waiting(threads[t]) && !Waiting(pc)
    ensures TicketsUnique(threads[t := pc], accepted, order + [threads[t].ticket])
  {
  }

  lemma CarriedMove(threads: Threads, cts: seq<Bytes>, still: bool, t: Tid, pc: Pc, still': bool)
    requires t < |threads| && CarriesLast(threads, cts, still)
    requires Carrying(pc) ==> cts != [] && pc.frame == Frame(cts[|cts| - 1])
    requires pc.Writing? ==> pc.done <= |pc.frame| && (still' ==> pc.done == 0)
    requires still' && !still ==> forall u :: 0 <= u < |threads| && threads[u].Writing? ==> u == t
    ensures CarriesLast(threads[t := pc], cts, still')
  {
  }

  lemma CarriedSeal(threads: Threads, cts: seq<Bytes>, still: bool, t: Tid, ct: Bytes)
    requires t < |threads| && CarriesLast(threads, cts, still)
    requires forall u :: 0 <= u < |threads| ==> !Carrying(threads[u])
    ensures CarriesLast(threads[t := Sealed(Frame(ct))], cts + [ct], still)
  {
  }

  lemma QuietMove(threads: Threads, cts: seq<Bytes>, wire: Bytes, still: bool, t: Tid, pc: Pc)
    requires t < |threads| && WireInOrder(threads, cts, wire, still)
    requires Carrying(pc) == Carrying(threads[t]) && OnWire(pc) == OnWire(threads[t])
    ensures WireInOrder(threads[t := pc], cts, wire, still)
  {
    var threads' := threads[t := pc];
    forall u | 0 <= u < |threads|
      ensures Carrying(threads[u]) == Carrying(threads'[u]) && OnWire(threads[u]) == OnWire(threads'[u])
    {
    }
    hide FrameAll, OnWire, Carrying;
  }

  lemma SealMove(threads: Threads, cts: seq<Bytes>, wire: Bytes, still: bool, t: Tid, ct: Bytes)
    requires t < |threads| && WireInOrder(threads, cts, wire, still)
    requires forall u :: 0 <= u < |threads| ==> !Carrying(threads[u])
    ensures WireInOrder(threads[t := Sealed(Frame(ct))], cts + [ct], wire, still)
  {
    FrameAllGrows(cts, ct);
    hide FrameAll;
    assert (cts + [ct])[..|cts|] == cts;
    assert Carrying(threads[t := Sealed(Frame(ct))][t]);
  }

  lemma WriteMove(threads: Threads, cts: seq<Bytes>, wire: Bytes, t: Tid, count: nat)
    requires t < |threads| && WireInOrder(threads, cts, wire, false)
    requires threads[t].Writing? && threads[t].done + count <= |threads[t].frame|
    requires forall u :: 0 <= u < |threads| && Carrying(threads[u]) ==> u == t
    ensures var Writing(frame, done) := threads[t];
            WireInOrder(threads[t := Writing(frame, done + count)], cts, wire + frame[done..done + count], false)
  {
    hide FrameAll;
    var Writing(frame, done) := threads[t];
    var threads' := threads[t := Writing(frame, done + count)];
    assert Carrying(threads[t]) && Carrying(threads'[t]);
    assert frame[..done] + frame[done..done + count] == frame[..done + count];
    forall u | 0 <= u < |threads'| && u != t
      ensures !Carrying(threads'[u])
    {
      assert threads'[u] == threads[u];
    }
    assert wire + frame[done..done + count] == FrameAll(cts[..|cts| - 1]) + OnWire(threads'[t]);
  }

  /** When a thread has written its whole frame the wire is exactly the frames so far. */
  lemma WholeFrameWritten(threads: Threads, cts: seq<Bytes>, wire: Bytes, still: bool, t: Tid)
    requires t < |threads| && CarriesLast(threads, cts, still) && WireInOrder(threads, cts, wire, still)
    requires threads[t].Writing? && threads[t].done == |threads[t].frame|
    ensures !still && wire == FrameAll(cts)
  {
    assert Carrying(threads[t]) && threads[t].frame == Frame(cts[|cts| - 1]);
    FrameAllLast(cts);
    hide FrameAll;
    assert OnWire(threads[t]) == threads[t].frame;
  }

  /** A partly written wire is a prefix of the frames. */
  lemma CarriedIsPrefix(threads: Threads, cts: seq<Bytes>, wire: Bytes, still: bool)
    requires CarriesLast(threads, cts, still) && WireInOrder(threads, cts, wire, still)
    ensures wire <= FrameAll(cts)
  {
    if !still {
      if t :| 0 <= t < |threads| && Carrying(threads[t]) {
        FrameAllLast(cts);
        hide FrameAll;
        assert threads[t].frame == Frame(cts[|cts| - 1]);
        assert OnWire(threads[t]) <= threads[t].frame;
      }
    }
  }

  lemma ReleaseMove(threads: Threads, cts: seq<Bytes>, wire: Bytes, still: bool, t: Tid, still': bool)
    requires t < |threads| && CarriesLast(threads, cts, still) && WireInOrder(threads, cts, wire, still)
    requires threads[t].Writing? && forall u :: 0 <= u < |threads| && Carrying(threads[u]) ==> u == t
    requires still' || threads[t].done == |threads[t].frame|
    requires still ==> still'
    ensures WireInOrder(threads[t := Idle], cts, wire, still')
  {
    CarriedIsPrefix(threads, cts, wire, still);
    if !still' {
      WholeFrameWritten(threads, cts, wire, still, t);
    }
    hide FrameAll, CarriesLast;
    var threads' := threads[t := Idle];
    assert forall u :: 0 <= u < |threads'| ==> !Carrying(threads'[u]);
  }

  lemma AcksKept(acked: set<nat>, cts: seq<Bytes>, wire: Bytes, cts': seq<Bytes>, wire': Bytes)
    requires AcksOnWire(acked, cts, wire) && cts <= cts' && wire <= wire'
    ensures AcksOnWire(acked, cts', wire')
  {
    forall n | n in acked
      ensures n <= |cts'| && FrameAll(cts'[..n]) <= wire'
    {
      assert cts'[..n] == cts[..n];
    }
  }

  lemma AckAdded(acked: set<nat>, cts: seq<Bytes>, wire: Bytes)
    requires AcksOnWire(acked, cts, wire) && wire == FrameAll(cts)
    ensures AcksOnWire(acked + {|cts|}, cts, wire)
  {
    assert cts[..|cts|] == cts;
  }

  lemma NoncesKept(p: Primitives, key: Bytes, cipher: Cipher, accepted: seq<Bytes>, order: seq<nat>, cts: seq<Bytes>, plaintext: Bytes)
    requires NoncesInOrder(p, key, cipher, accepted, order, cts)
    ensures NoncesInOrder(p, key, cipher, accepted + [plaintext], order, cts)
  {
  }

  lemma NonceSealed(p: Primitives, key: Bytes, cipher: Cipher, accepted: seq<Bytes>, order: seq<nat>, cts: seq<Bytes>, ticket: nat)
    requires NoncesInOrder(p, key, cipher, accepted, order, cts) && ticket < |accepted|
    ensures var (cipher', r) := TransportEncrypted(p, cipher, accepted[ticket]);
            r.Ok? ==> NoncesInOrder(p, key, cipher', accepted, order + [ticket], cts + [r.value])
  {
  }

  lemma BoundedCall(accepted: seq<Bytes>, sentCount: nat, plaintext: Bytes)
    requires Bounded(accepted, sentCount)
    ensures Bounded(accepted, sentCount + 1)
    ensures sentCount <= MAX_MESSAGES && |plaintext| <= MAX_PLAINTEXT ==> Bounded(accepted + [plaintext], sentCount + 1)
  {
  }

  // ---- every step keeps the invariant ----------------------------------------------

  lemma CalledKeepsInv(p: Primitives, key: Bytes, c: Channel, t: Tid, plaintext: Bytes)
    requires Inv(p, key, c) && t < |c.threads| && c.threads[t].Idle?
    ensures Inv(p, key, Called(c, t, plaintext))
  {
    hide LocksHeld, TicketsUnique, NoncesInOrder, CarriesLast, WireInOrder, AcksOnWire, Bounded;
    LockFacts(c.threads, c.noise, c.writer, t);
    BoundedCall(c.accepted, c.sentCount, plaintext);
    var pc := WantsNoise(|c.accepted|);
    LocksMove(c.threads, c.noise, c.writer, t, pc, c.noise, c.writer);
    TicketIssued(c.threads, c.accepted, c.order, t, plaintext);
    NoncesKept(p, key, c.cipher, c.accepted, c.order, c.cts, plaintext);
    CarriedMove(c.threads, c.cts, Still(c), t, pc, Still(c));
    if !c.torn {
      QuietMove(c.threads, c.cts, c.wire, Still(c), t, pc);
    }
  }

  lemma NoiseLockedKeepsInv(p: Primitives, key: Bytes, c: Channel, t: Tid)
    requires Inv(p, key, c) && t < |c.threads| && c.threads[t].WantsNoise? && c.noise.None?
    ensures Inv(p, key, NoiseLocked(c, t))
  {
    hide LocksHeld, TicketsUnique, NoncesInOrder, CarriesLast, WireInOrder, AcksOnWire, Bounded;
    LockFacts(c.threads, c.noise, c.writer, t);
    var pc := HoldsNoise(c.threads[t].ticket);
    LocksMove(c.threads, c.noise, c.writer, t, pc, Some(SenderThread(t)), c.writer);
    TicketMoves(c.threads, c.accepted, c.order, t, pc);
    CarriedMove(c.threads, c.cts, Still(c), t, pc, Still(c));
    if !c.torn {
      QuietMove(c.threads, c.cts, c.wire, Still(c), t, pc);
    }
  }

  lemma MessageSealedKeepsInv(p: Primitives, key: Bytes, c: Channel, t: Tid)
    requires Inv(p, key, c) && t < |c.threads| && c.threads[t].HoldsNoise? && c.threads[t].ticket < |c.accepted|
    ensures Inv(p, key, MessageSealed(p, c, t))
  {
    hide LocksHeld, TicketsUnique, NoncesInOrder, CarriesLast, WireInOrder, AcksOnWire, Bounded, TransportEncrypted, Frame;
    LockFacts(c.threads, c.noise, c.writer, t);
    var ticket := c.threads[t].ticket;
    var (_, r) := TransportEncrypted(p, c.cipher, c.accepted[ticket]);
    if r.Ok? {
      var pc := Sealed(Frame(r.value));
      LocksMove(c.threads, c.noise, c.writer, t, pc, c.noise, c.writer);
      TicketSealed(c.threads, c.accepted, c.order, t, pc);
      NonceSealed(p, key, c.cipher, c.accepted, c.order, c.cts, ticket);
      CarriedSeal(c.threads, c.cts, Still(c), t, r.value);
      if !c.torn {
        SealMove(c.threads, c.cts, c.wire, Still(c), t, r.value);
        AcksKept(c.acked, c.cts, c.wire, c.cts + [r.value], c.wire);
      }
    } else {
      LocksMove(c.threads, c.noise, c.writer, t, Idle, None, c.writer);
      TicketMoves(c.threads, c.accepted, c.order, t, Idle);
      CarriedMove(c.threads, c.cts, Still(c), t, Idle, Still(c));
      if !c.torn {
        QuietMove(c.threads, c.cts, c.wire, Still(c), t, Idle);
      }
    }
  }

  lemma WriterLockedKeepsInv(p: Primitives, key: Bytes, c: Channel, t: Tid)
    requires Inv(p, key, c) && t < |c.threads| && c.threads[t].Sealed? && c.writer.None?
    ensures Inv(p, key, WriterLocked(c, t))
  {
    LockFacts(c.threads, c.noise, c.writer, t);
    assert Carrying(c.threads[t]);
    var pc := Writing(c.threads[t].frame, 0);
    assert pc.frame == Frame(c.cts[|c.cts| - 1]);
    hide LocksHeld, TicketsUnique, NoncesInOrder, CarriesLast, WireInOrder, AcksOnWire, Bounded, Frame;
    LocksMove(c.threads, c.noise, c.writer, t, pc, c.noise, Some(t));
    TicketMoves(c.threads, c.accepted, c.order, t, pc);
    CarriedMove(c.threads, c.cts, Still(c), t, pc, Still(c));
    if !c.torn {
      QuietMove(c.threads, c.cts, c.wire, Still(c), t, pc);
    }
  }

  lemma BytesWrittenKeepsInv(p: Primitives, key: Bytes, c: Channel, t: Tid, count: nat)
    requires Inv(p, key, c) && t < |c.threads| && c.threads[t].Writing?
    requires !c.shut && 0 < count && c.threads[t].done + count <= |c.threads[t].frame|
    ensures Inv(p, key, BytesWritten(c, t, count))
  {
    hide LocksHeld, TicketsUnique, NoncesInOrder, WireInOrder, AcksOnWire, Bounded, Frame;
    LockFacts(c.threads, c.noise, c.writer, t);
    assert Carrying(c.threads[t]);
    var Writing(frame, done) := c.threads[t];
    var pc := Writing(frame, done + count);
    assert frame == Frame(c.cts[|c.cts| - 1]);
    hide CarriesLast;
    var c' := BytesWritten(c, t, count);
    LocksMove(c.threads, c.noise, c.writer, t, pc, c.noise, c.writer);
    TicketMoves(c.threads, c.accepted, c.order, t, pc);
    CarriedMove(c.threads, c.cts, Still(c), t, pc, Still(c'));
    if !c'.torn {
      WriteMove(c.threads, c.cts, c.wire, t, count);
      AcksKept(c.acked, c.cts, c.wire, c.cts, c'.wire);
    }
  }

  lemma ReleasedKeepsInv(p: Primitives, key: Bytes, c: Channel, t: Tid)
    requires Inv(p, key, c) && t < |c.threads| && c.threads[t].Writing?
    ensures c.threads[t].done == |c.threads[t].frame| ==> Inv(p, key, Returned(c, t))
    ensures c.threads[t].done < |c.threads[t].frame| ==> Inv(p, key, WriteFailed(c, t))
  {
    hide LocksHeld, TicketsUnique, NoncesInOrder, CarriesLast, WireInOrder, AcksOnWire, Bounded;
    LockFacts(c.threads, c.noise, c.writer, t);
    assert Carrying(c.threads[t]);
    var c' := if c.threads[t].done == |c.threads[t].frame| then Returned(c, t) else WriteFailed(c, t);
    LocksMove(c.threads, c.noise, c.writer, t, Idle, None, None);
    TicketMoves(c.threads, c.accepted, c.order, t, Idle);
    CarriedMove(c.threads, c.cts, Still(c), t, Idle, Still(c'));
    if !c.torn {
      if c.threads[t].done == |c.threads[t].frame| {
        WholeFrameWritten(c.threads, c.cts, c.wire, Still(c), t);
        AckAdded(c.acked, c.cts, c.wire);
      }
      ReleaseMove(c.threads, c.cts, c.wire, Still(c), t, Still(c'));
    }
  }

  lemma ShutDownKeepsInv(p: Primitives, key: Bytes, c: Channel)
    requires Inv(p, key, c) && c.writer.None?
    ensures Inv(p, key, c.(shut := true))
  {
    if !c.torn {
      CarriedIsPrefix(c.threads, c.cts, c.wire, Still(c));
    }
    assert forall t :: 0 <= t < |c.threads| ==> !c.threads[t].Writing?;
    hide TicketsUnique, NoncesInOrder, AcksOnWire, Bounded, FrameAll, Frame, LocksHeld;
  }

  lemma ReaderMovesKeepInv(p: Primitives, key: Bytes, c: Channel)
    requires Inv(p, key, c)
    ensures c.noise.None? ==> Inv(p, key, c.(noise := Some(ReaderThread)))
    ensures c.noise == Some(ReaderThread) ==> Inv(p, key, c.(noise := None))
    ensures Inv(p, key, c.(closed := true))
  {
    hide TicketsUnique, NoncesInOrder, AcksOnWire, Bounded, FrameAll, Frame, WireInOrder, CarriesLast;
  }

  lemma StepKeepsInv(p: Primitives, key: Bytes, c: Channel, a: Action)
    requires Enabled(c, a) && Inv(p, key, c)
    ensures Inv(p, key, Step(p, c, a))
  {
    hide Inv, Called, NoiseLocked, MessageSealed, WriterLocked, BytesWritten, Returned, WriteFailed;
    match a {
      case Call(t, plaintext) => CalledKeepsInv(p, key, c, t, plaintext);
      case LockNoise(t) => NoiseLockedKeepsInv(p, key, c, t);
      case SealMessage(t) => MessageSealedKeepsInv(p, key, c, t);
      case LockWriter(t) => WriterLockedKeepsInv(p, key, c, t);
      case WriteSome(t, count) => BytesWrittenKeepsInv(p, key, c, t, count);
      case Return(t) => ReleasedKeepsInv(p, key, c, t);
      case WriteFails(t) => ReleasedKeepsInv(p, key, c, t);
      case ShutDown => ShutDownKeepsInv(p, key, c);
      case _ => ReaderMovesKeepInv(p, key, c);
    }
  }

  // ---- where the stream breaks -------------------------------------------------------

  lemma SealKeepsBreak(p: Primitives, c: Channel, t: Tid)
    requires BreakMarked(c) && t < |c.threads| && c.threads[t].HoldsNoise? && c.threads[t].ticket < |c.accepted|
    ensures BreakMarked(MessageSealed(p, c, t))
  {
    assert c.broken.Some? ==> c.broken.value <= |c.cts|;
    hide BreakOnWire, Frame, TransportEncrypted;
    var (_, r) := TransportEncrypted(p, c.cipher, c.accepted[c.threads[t].ticket]);
    if r.Ok? {
      BreakStaysOnWire(c.cts, c.wire, c.broken, c.torn, c.cts + [r.value], c.wire, c.torn);
    }
  }

  lemma WriteKeepsBreak(c: Channel, t: Tid, count: nat)
    requires BreakMarked(c) && t < |c.threads| && c.threads[t].Writing? && c.threads[t].done + count <= |c.threads[t].frame|
    ensures BreakMarked(BytesWritten(c, t, count))
  {
    hide BreakOnWire, Frame;
    assert Carrying(c.threads[t]);
    var c' := BytesWritten(c, t, count);
    if c.broken.Some? {
      BreakStaysOnWire(c.cts, c.wire, c.broken, c.torn, c.cts, c'.wire, true);
    } else {
      assert BreakOnWire(c.cts, c'.wire, None, c'.torn) by { NoBreakYet(c.cts, c'.wire, c'.torn); }
    }
  }

  /** The first write that fails on an open socket leaves its frame cut short. */
  lemma BreakCutsLastFrame(cts: seq<Bytes>, wire: Bytes, threads: Threads, t: Tid)
    requires t < |threads| && threads[t].Writing? && threads[t].done < |threads[t].frame|
    requires CarriesLast(threads, cts, false) && WireInOrder(threads, cts, wire, false)
    ensures cts != [] && BreakOnWire(cts, wire, Some(|cts|), false)
  {
    assert Carrying(threads[t]);
    FrameAllLast(cts);
    assert cts[..|cts|] == cts;
    hide FrameAll, Frame;
    assert |OnWire(threads[t])| < |threads[t].frame|;
  }

  lemma ReleaseKeepsBreak(p: Primitives, key: Bytes, c: Channel, t: Tid)
    requires Inv(p, key, c) && BreakMarked(c) && t < |c.threads| && c.threads[t].Writing?
    ensures c.threads[t].done == |c.threads[t].frame| ==> BreakMarked(Returned(c, t))
    ensures c.threads[t].done < |c.threads[t].frame| ==> BreakMarked(WriteFailed(c, t))
  {
    hide TicketsUnique, NoncesInOrder, AcksOnWire, Bounded, BreakOnWire, WireInOrder, CarriesLast;
    LockFacts(c.threads, c.noise, c.writer, t);
    hide LocksHeld;
    assert Carrying(c.threads[t]);
    if c.broken.None? && !c.shut && c.threads[t].done < |c.threads[t].frame| {
      BreakCutsLastFrame(c.cts, c.wire, c.threads, t);
    }
  }

  lemma StepKeepsBreak(p: Primitives, key: Bytes, c: Channel, a: Action)
    requires Enabled(c, a) && Inv(p, key, c) && BreakMarked(c)
    ensures BreakMarked(Step(p, c, a))
  {
    hide Inv, MessageSealed, BytesWritten, Returned, WriteFailed, BreakOnWire;
    match a {
      case SealMessage(t) => SealKeepsBreak(p, c, t);
      case WriteSome(t, count) => WriteKeepsBreak(c, t, count);
      case Return(t) => ReleaseKeepsBreak(p, key, c, t);
      case WriteFails(t) => ReleaseKeepsBreak(p, key, c, t);
      case _ =>
    }
  }

  lemma {:induction false} RunKeepsInv(p: Primitives, key: Bytes, c: Channel, run: seq<Action>)
    requires Inv(p, key, c) && BreakMarked(c) && Possible(p, c, run)
    ensures Inv(p, key, After(p, c, run)) && BreakMarked(After(p, c, run))
    decreases |run|
  {
    hide Inv, BreakMarked, Step, Enabled;
    if run != [] {
      StepKeepsInv(p, key, c, run[0]);
      StepKeepsBreak(p, key, c, run[0]);
      RunKeepsInv(p, key, Step(p, c, run[0]), run[1..]);
    }
  }

  // ---- main results --------------------------------------------------------------

  lemma OpenIsInv(p: Primitives, key: Bytes, senders: nat)
    ensures Inv(p, key, Open(key, senders)) && BreakMarked(Open(key, senders))
  {
    assert FrameAll([]) == [];
  }

  /** No accepted plaintext is sealed twice, and no more are sealed than the reader will take. */
  lemma MessagesAreSealed(p: Primitives, key: Bytes, c: Channel)
    requires Inv(p, key, c)
    ensures |c.cts| == |Messages(c)| <= MAX_MESSAGES + 1
    ensures Sealing(p, key, 0, Messages(c), c.cts) && Expecting(p, key, NewReader(key), Messages(c), c.cts)
  {
    Pigeonhole(c.order, Below(|c.accepted|));
    forall j | 0 <= j < |c.order|
      ensures c.cts[j] == p.seal(key, NonceBytes(0 + j), [], Messages(c)[j])
    {
    }
  }

  /** What every run keeps, and what the reader can expect after it. */
  lemma RunFacts(p: Primitives, key: Bytes, senders: nat, run: seq<Action>)
    requires Possible(p, Open(key, senders), run)
    ensures var c := After(p, Open(key, senders), run);
            && Inv(p, key, c) && BreakMarked(c)
            && (forall j :: 0 <= j < |c.order| ==> c.order[j] < |c.accepted|) && Distinct(c.order)
            && |c.cts| == |Messages(c)| && Expecting(p, key, NewReader(key), Messages(c), c.cts)
  {
    OpenIsInv(p, key, senders);
    RunKeepsInv(p, key, Open(key, senders), run);
    MessagesAreSealed(p, key, After(p, Open(key, senders), run));
    hide After, BreakMarked, Possible;
  }

  /**
   * Whatever the interleaving of the senders: each accepted message is sealed at most once, and until bytes
   * follow a broken frame the wire is a prefix of the frames in nonce order, a reader recovers exactly the
   * messages whose frames are whole (up to the first that does not decode), and every send that reported
   * success is among the whole ones.
   */
  lemma AnyInterleavingIsReadInOrder(p: Primitives, key: Bytes, decodes: Decoder, senders: nat, run: seq<Action>)
    requires p.Lawful() && Possible(p, Open(key, senders), run)
    ensures var c := After(p, Open(key, senders), run);
            && (forall j :: 0 <= j < |c.order| ==> c.order[j] < |c.accepted|) && Distinct(c.order)
            && |c.cts| == |c.order|
            && (!c.torn ==>
                  var n := WholeFrames(c.cts, |c.wire|);
                  && c.wire <= FrameAll(c.cts)
                  && ReceivedAll(p, decodes, NewReader(key), c.wire) == Understood(decodes, Messages(c)[..n])
                  && forall k :: k in c.acked ==> k <= n)
  {
    hide Possible, After, ReceivedAll, Primitives.Lawful, Expecting, BreakMarked, Understood, FrameAll;
    RunFacts(p, key, senders, run);
    var c := After(p, Open(key, senders), run);
    if !c.torn {
      CarriedIsPrefix(c.threads, c.cts, c.wire, Still(c));
      ReaderRecovers(p, key, decodes, NewReader(key), Messages(c), c.cts, c.wire);
      forall k | k in c.acked
        ensures k <= WholeFrames(c.cts, |c.wire|)
      {
        WholeFramesMonotone(c.cts, k, |c.wire|);
      }
    }
  }

  /**
   * In every run, torn or not: a send that reported success before any frame broke is read whatever happened
   * later, if it and the messages before it decode.
   */
  lemma AckedBeforeBreakIsRead(p: Primitives, key: Bytes, decodes: Decoder, senders: nat, run: seq<Action>, k: nat)
    requires p.Lawful() && Possible(p, Open(key, senders), run)
    requires var c := After(p, Open(key, senders), run);
             k in c.acked && (c.broken.Some? ==> k < c.broken.value)
    ensures var c := After(p, Open(key, senders), run);
            && (forall j :: 0 <= j < |c.order| ==> c.order[j] < |c.accepted|)
            && k <= |Messages(c)|
            && (AllDecode(decodes, Messages(c)[..k]) ==> Messages(c)[..k] <= ReceivedAll(p, decodes, NewReader(key), c.wire))
  {
    hide Possible, After, ReceivedAll, Primitives.Lawful, Expecting, FrameAll, AllDecode;
    RunFacts(p, key, senders, run);
    var c := After(p, Open(key, senders), run);
    if c.broken.Some? {
      var b := c.broken.value;
      FramesArePrefix(c.cts[..b - 1], k);
      assert c.cts[..b - 1][..k] == c.cts[..k];
    }
    if AllDecode(decodes, Messages(c)[..k]) {
      WholeFramesAreRead(p, key, decodes, NewReader(key), Messages(c), c.cts, c.wire, k);
    }
  }

  /**
   * With ideal AEAD the reader stops in front of the first broken frame, unless the bytes behind it happen to
   * complete it: a send that reported success is then read exactly when it was sealed before that frame and
   * it and the messages before it decode.
   */
  lemma AckedIsReadExactlyBeforeBreak(p: Primitives, key: Bytes, decodes: Decoder, senders: nat, run: seq<Action>)
    requires p.Lawful() && Possible(p, Open(key, senders), run)
    requires var c := After(p, Open(key, senders), run);
             && c.broken.Some? && AuthenticStream(p, key, decodes, c.cts, NewReader(key), c.wire)
             && (c.torn ==> c.broken.value <= |c.cts| && !(FrameAll(c.cts[..c.broken.value]) <= c.wire))
    ensures var c := After(p, Open(key, senders), run);
            var read := ReceivedAll(p, decodes, NewReader(key), c.wire);
            && (forall j :: 0 <= j < |c.order| ==> c.order[j] < |c.accepted|)
            && 1 <= c.broken.value <= |Messages(c)|
            && read == Understood(decodes, Messages(c)[..c.broken.value - 1])
            && forall k :: k in c.acked ==>
                 k <= |Messages(c)| && (k <= |read| <==> k < c.broken.value && AllDecode(decodes, Messages(c)[..k]))
  {
    hide Possible, After, ReceivedAll, Primitives.Lawful, Expecting, FrameAll, AllDecode, AuthenticStream, Inv, Understood;
    RunFacts(p, key, senders, run);
    var c := After(p, Open(key, senders), run);
    ReadUpToBreak(p, key, decodes, NewReader(key), Messages(c), c.cts, c.wire, c.broken.value);
    forall k | k in c.acked && k < c.broken.value
      ensures k <= |ReceivedAll(p, decodes, NewReader(key), c.wire)| <==> AllDecode(decodes, Messages(c)[..k])
    {
      UnderstoodExactly(decodes, Messages(c)[..c.broken.value - 1], k);
      assert Messages(c)[..c.broken.value - 1][..k] == Messages(c)[..k];
    }
  }

  /** Once no frame is in hand, on an open socket where nothing broke, the reader gets every message that decodes. */
  lemma QuiescentChannelDeliversAll(p: Primitives, key: Bytes, decodes: Decoder, senders: nat, run: seq<Action>)
    requires p.Lawful() && Possible(p, Open(key, senders), run)
    requires var c := After(p, Open(key, senders), run);
             !c.shut && c.broken.None? && forall t :: 0 <= t < |c.threads| ==> !Carrying(c.threads[t])
    ensures var c := After(p, Open(key, senders), run);
            && (forall j :: 0 <= j < |c.order| ==> c.order[j] < |c.accepted|)
            && c.wire == FrameAll(c.cts) && |c.cts| == |Messages(c)|
            && ReceivedAll(p, decodes, NewReader(key), c.wire) == Understood(decodes, Messages(c))
  {
    hide Primitives.Lawful, After, Possible, ReceivedAll, FrameAll, WholeFrames, Understood, Expecting;
    AnyInterleavingIsReadInOrder(p, key, decodes, senders, run);
    RunFacts(p, key, senders, run);
    var c := After(p, Open(key, senders), run);
    WholeFramesOfAll(c.cts);
    assert c.wire == FrameAll(c.cts);
    assert Messages(c)[..|c.cts|] == Messages(c);
  }

  /** With ideal AEAD, whatever bytes reach the reader: it accepts a prefix of the sealed messages. */
  lemma AnyDeliveryIsPrefix(p: Primitives, key: Bytes, decodes: Decoder, senders: nat, run: seq<Action>, stream: Bytes)
    requires p.Lawful() && Possible(p, Open(key, senders), run)
    requires AuthenticStream(p, key, decodes, After(p, Open(key, senders), run).cts, NewReader(key), stream)
    ensures var c := After(p, Open(key, senders), run);
            && (forall j :: 0 <= j < |c.order| ==> c.order[j] < |c.accepted|)
            && ReceivedAll(p, decodes, NewReader(key), stream) <= Messages(c)
  {
    hide Primitives.Lawful, After, Possible, ReceivedAll, FrameAll, Inv, BreakMarked, AuthenticStream;
    RunFacts(p, key, senders, run);
    var c := After(p, Open(key, senders), run);
    AnyStreamYieldsPrefix(p, key, decodes, NewReader(key), Messages(c), c.cts, stream);
    assert Messages(c)[0..] == Messages(c);
  }

  lemma {:induction false} RunOneMore(p: Primitives, c: Channel, run: seq<Action>, a: Action)
    requires Possible(p, c, run) && Enabled(After(p, c, run), a)
    ensures Possible(p, c, run + [a]) && After(p, c, run + [a]) == Step(p, After(p, c, run), a)
    decreases |run|
  {
    if run == [] {
      assert [a][1..] == [];
    } else {
      RunOneMore(p, Step(p, c, run[0]), run[1..], a);
      assert (run + [a])[1..] == run[1..] + [a];
    }
  }

  lemma {:induction false} RunsCompose(p: Primitives, c: Channel, first: seq<Action>, second: seq<Action>)
    requires Possible(p, c, first) && Possible(p, After(p, c, first), second)
    ensures Possible(p, c, first + second)
    ensures After(p, c, first + second) == After(p, After(p, c, first), second)
    decreases |first|
  {
    if first == [] {
      assert first + second == second;
    } else {
      RunsCompose(p, Step(p, c, first[0]), first[1..], second);
      assert (first + second)[1..] == first[1..] + second;
    }
  }

  /** One sender alone seals an empty plaintext, gets `count` bytes of its 20-byte frame out, and then ends with `last`. */
  lemma LoneSender(p: Primitives, c: Channel, t: Tid, count: nat, last: Action) returns (run: seq<Action>)
    requires p.Lawful() && c.cipher.k.Some? && c.cipher.n < RESERVED && c.sentCount <= MAX_MESSAGES
    requires t < |c.threads| && c.threads[t].Idle? && c.noise.None? && c.writer.None? && !c.closed && !c.shut
    requires 0 < count <= 20 && last == (if count == 20 then Return(t) else WriteFails(t))
    ensures Possible(p, c, run)
    ensures var ct := p.seal(c.cipher.k.value, NonceBytes(c.cipher.n), [], []);
            && |Frame(ct)| == 20
            && After(p, c, run) ==
                 c.(sentCount := c.sentCount + 1, accepted := c.accepted + [[]], order := c.order + [|c.accepted|],
                    cipher := Advance(c.cipher), cts := c.cts + [ct], wire := c.wire + Frame(ct)[..count],
                    acked := if count == 20 then c.acked + {|c.cts| + 1} else c.acked,
                    broken := if c.broken.None? && count < 20 then Some(|c.cts| + 1) else c.broken,
                    torn := c.torn || c.broken.Some?)
  {
    hide Primitives.Lawful, Possible, After, NonceBytes, BigEndian;
    SealLaw(p, c.cipher.k.value, NonceBytes(c.cipher.n), [], []);
    var ct := p.seal(c.cipher.k.value, NonceBytes(c.cipher.n), [], []);
    var c1 := Step(p, c, Call(t, []));
    var c2 := Step(p, c1, LockNoise(t));
    var c3 := Step(p, c2, SealMessage(t));
    assert c3.threads[t] == Sealed(Frame(ct));
    var c4 := Step(p, c3, LockWriter(t));
    var c5 := Step(p, c4, WriteSome(t, count));
    assert Frame(ct)[0..count] == Frame(ct)[..count];
    var c6 := Step(p, c5, last);
    assert c6.threads == c.threads;
    run := [Call(t, []), LockNoise(t), SealMessage(t), LockWriter(t), WriteSome(t, count), last];
    SixSteps(p, c, c1, c2, c3, c4, c5, run);
  }

  lemma SixSteps(p: Primitives, c: Channel, c1: Channel, c2: Channel, c3: Channel, c4: Channel, c5: Channel, run: seq<Action>)
    requires |run| == 6
    requires Enabled(c, run[0]) && c1 == Step(p, c, run[0]) && Enabled(c1, run[1]) && c2 == Step(p, c1, run[1])
    requires Enabled(c2, run[2]) && c3 == Step(p, c2, run[2]) && Enabled(c3, run[3]) && c4 == Step(p, c3, run[3])
    requires Enabled(c4, run[4]) && c5 == Step(p, c4, run[4]) && Enabled(c5, run[5])
    ensures Possible(p, c, run) && After(p, c, run) == Step(p, c5, run[5])
  {
    hide Step, Enabled;
    var r5, r4, r3, r2, r1 := run[5..], run[4..], run[3..], run[2..], run[1..];
    assert r5[1..] == [] && r4[1..] == r5 && r3[1..] == r4 && r2[1..] == r3 && r1[1..] == r2;
    assert Possible(p, c5, r5) && After(p, c5, r5) == Step(p, c5, run[5]);
    assert Possible(p, c4, r4) && After(p, c4, r4) == After(p, c5, r5);
    assert Possible(p, c3, r3) && After(p, c3, r3) == After(p, c4, r4);
    assert Possible(p, c2, r2) && After(p, c2, r2) == After(p, c3, r3);
    assert Possible(p, c1, r1) && After(p, c1, r1) == After(p, c2, r2);
  }

  /** Sender 0 fails after one byte of its frame, then sender 1 sends a whole frame and is told it was sent. */
  lemma TwoLoneSenders(p: Primitives, key: Bytes) returns (run: seq<Action>)
    requires p.Lawful()
    ensures Possible(p, Open(key, 2), run)
    ensures var c := After(p, Open(key, 2), run);
            var ct0, ct1 := p.seal(key, NonceBytes(0), [], []), p.seal(key, NonceBytes(1), [], []);
            && c.torn && c.broken == Some(1) && c.acked == {2} && |c.cts| == 2
            && |Frame(ct0)| == |Frame(ct1)| == 20
            && c.wire == [] + Frame(ct0)[..1] + Frame(ct1)[..20]
  {
    hide Step, Possible, After, Enabled, Frame, Primitives.Lawful, NonceBytes;
    var c0 := Open(key, 2);
    var first := LoneSender(p, c0, 0, 1, WriteFails(0));
    var c1 := After(p, c0, first);
    var second := LoneSender(p, c1, 1, 20, Return(1));
    RunsCompose(p, c0, first, second);
    run := first + second;
  }

  /**
   * The proviso is needed: a write that fails on an open socket leaves a torn frame, the session stays open,
   * and the next sender's frame, though reported as sent, is never read.
   */
  lemma TornFrameLosesALaterMessage(p: Primitives, key: Bytes, decodes: Decoder) returns (run: seq<Action>)
    requires p.Lawful()
    ensures Possible(p, Open(key, 2), run)
    ensures var c := After(p, Open(key, 2), run);
            && c.torn && c.broken == Some(1) && c.acked == {2} && |c.cts| == 2
            && ReceivedAll(p, decodes, NewReader(key), c.wire) == []
  {
    hide Step, Possible, After, Enabled, ReceivedAll, Primitives.Lawful, NonceBytes, BigEndian;
    run := TwoLoneSenders(p, key);
    var ct0, ct1 := p.seal(key, NonceBytes(0), [], []), p.seal(key, NonceBytes(1), [], []);
    assert [] + Frame(ct0)[..1] == Frame(ct0)[..1] && Frame(ct1)[..20] == Frame(ct1);
    TornBytesAreRefused(p, decodes, NewReader(key), ct0, ct1);
  }

  /** One byte of a frame followed by a whole one reads as a length of zero. */
  lemma TornBytesAreRefused(p: Primitives, decodes: Decoder, rx: Receiver, ct0: Bytes, ct1: Bytes)
    requires |ct0| == |ct1| == 16
    ensures ReceivedAll(p, decodes, rx, Frame(ct0)[..1] + Frame(ct1)) == []
  {
    var wire := Frame(ct0)[..1] + Frame(ct1);
    var zeros: Bytes := [0, 0, 0, 0];
    LengthSixteen();
    hide BigEndian, FromBigEndian, Decrypted;
    assert wire[..4] == zeros;
  }

  lemma LengthSixteen()
    ensures BigEndian(16, 4) == [0, 0, 0, 16] && FromBigEndian([0, 0, 0, 0]) == 0
  {
    assert BigEndian(0, 1) == [0] && BigEndian(0, 2) == [0, 0] && BigEndian(0, 3) == [0, 0, 0];
    assert FromBigEndian([0]) == 0 && FromBigEndian([0, 0]) == 0 by {
      assert [0, 0][..1] == [0];
    }
    var zeros: Bytes := [0, 0, 0, 0];
    assert zeros[..3] == [0, 0, 0] && [0, 0, 0][..2] == [0, 0];
  }
}
