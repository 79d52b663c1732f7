/** Everything the engine sends, read off what it is given: one action, one list of messages. */
module EngineReplies {
  import opened Prelude
  import opened Transfers
  import opened Engines
  import opened EngineInvariant
  import Naming

  // ---- the specification -------------------------------------------------------------

  /** The messages a peer may send before it is paired. */
  predicate Preliminary(m: Message) {
    m.Hello? || m.Ping? || m.Pong? || m.PairRequest? || m.PairAccept? || m.PairReject?
  }

  predicate Authorised(s: State, d: Device) {
    d in s.conns && s.conns[d].authorised
  }

  /** What reaches `d`: nothing unless its connection is open. */
  function Told(s: State, d: Device, m: Message): seq<Sent> {
    if d in s.conns && !s.conns[d].closed then [Sent(d, m)] else []
  }

  /** Message `m` arrives on a running connection and is one its peer may send. */
  predicate Heard(env: Env, s: State, c: ConnId, m: Message) {
    c in s.live && (Preliminary(m) || Authorised(s, env.deviceOf(s.live[c])))
  }

  /** A completed handshake becomes a connection. */
  predicate Admitted(env: Env, s: State, key: Key, expected: Option<Key>) {
    && (expected.Some? ==> expected.value == key)
    && (if key in s.trust then !s.trust[key].blocked else s.allowNew)
    && env.deviceOf(key) !in s.conns && |s.conns| < 16
  }

  /** An offer under `id` of `size` bytes is taken in. */
  predicate TakenIn(s: State, id: TransferId, size: nat) {
    (s.sizeLimit == 0 || size <= s.sizeLimit) && |s.inbox.incoming| < 16 && id !in s.inbox.incoming
  }

  predicate AcceptsAlone(s: State, key: Key) {
    key in s.trust && s.trust[key].autoAccept
  }

  /** A chunk of transfer `t` that cannot be written. */
  predicate Unwritable(s: State, t: Transfer, offset: nat, data: Bytes, luck: DiskLuck) {
    !t.accepted || offset != t.received || t.received + |data| > t.size || !luck.writes
  }

  /** A chunk of transfer `t` that can be written, and is its last. */
  predicate Completes(s: State, t: Transfer, offset: nat, data: Bytes, luck: DiskLuck) {
    t.accepted && offset == t.received && t.received + |data| == t.size && luck.writes
  }

  /** The peer on `c` sends a chunk of its own transfer. */
  predicate OwnChunk(s: State, c: ConnId, m: Message) {
    m.FileChunk? && c in s.live && m.id in s.inbox.incoming && s.inbox.incoming[m.id].fromKey == s.live[c]
  }

  function Replies(env: Env, s: State, c: ConnId, m: Message, luck: DiskLuck): seq<Sent>
    requires c in s.live
  {
    var d := env.deviceOf(s.live[c]);
    match m
    case Ping => Told(s, d, Pong)
    case Text(id) => Told(s, d, TextAck(id))
    case FileOffer(id, _, size, _) =>
      if !TakenIn(s, id, size) then Told(s, d, FileReject(id))
      else if !AcceptsAlone(s, s.live[c]) then []
      else Told(s, d, if luck.opens then FileAccept(id) else FileReject(id))
    case FileChunk(id, offset, data) =>
      if !OwnChunk(s, c, m) then [] else
        var t := s.inbox.incoming[id];
        if || Unwritable(s, t, offset, data, luck)
           || (Completes(s, t, offset, data, luck) && (!luck.publishes || env.sha256(t.hashed + data) != t.sha))
        then Told(s, d, FileError(id)) else []
    case _ => []
  }

  /** All that is sent because of one action, in order. */
  function Says(env: Env, s: State, a: Action): seq<Sent> {
    match a
    case Open(key, weDialed, expected) =>
      if !Admitted(env, s, key, expected) then [] else
        var d := env.deviceOf(key);
        [Sent(d, Hello)] + if weDialed && key !in s.trust then [Sent(d, PairRequest)] else []
    case Deliver(c, m, luck) => if Heard(env, s, c, m) then Replies(env, s, c, m, luck) else []
    case AnswerPairing(d, accept) => Told(s, d, if accept then PairAccept else PairReject)
    case AnswerOffer(id, accept, opens) =>
      if id !in s.inbox.incoming then []
      else Told(s, s.inbox.incoming[id].from, if accept && opens then FileAccept(id) else FileReject(id))
    case CancelTransfer(id) =>
      if id in s.outgoing then
        if Authorised(s, s.outgoing[id].to) then Told(s, s.outgoing[id].to, FileCancel(id)) else []
      else if id in s.inbox.incoming then Told(s, s.inbox.incoming[id].from, FileCancel(id))
      else []
    case Send(d, m) => if Authorised(s, d) then Told(s, d, m) else []
    case _ => []
  }

  /** All that is sent in a run, in order. */
  ghost function SaidIn(env: Env, s: State, actions: seq<Action>): seq<Sent>
    decreases |actions|
  {
    if actions == [] then [] else
      var n := |actions| - 1;
      SaidIn(env, s, actions[..n]) + Says(env, After(env, s, actions[..n]), actions[n])
  }

  // ---- handler by handler --------------------------------------------------------------

  lemma RawIsTold(s: State, d: Device, m: Message)
    ensures SendRaw(s, d, m).sent == s.sent + Told(s, d, m)
    ensures SendTo(s, d, m).sent == s.sent + if Authorised(s, d) then Told(s, d, m) else []
  {
  }

  lemma RawViews(s: State, d: Device, m: Message)
    ensures SendRaw(s, d, m) == s.(sent := SendRaw(s, d, m).sent)
  {
  }

  /** Finishing a pairing touches trust and one connection only. */
  lemma FinalizingViews(s: State, d: Device)
    ensures var t := PeerAccepted(s, d); t == s.(trust := t.trust, conns := t.conns)
    ensures var t := PairingFinalized(s, d); t == s.(trust := t.trust, conns := t.conns)
  {
    hide TrustAdded;
  }

  lemma ClosedFrame(s: State, d: Device)
    ensures Closed(s, d) == s.(conns := Closed(s, d).conns)
  {
  }

  /** User commands touch stored keys and connections only, and so does answering a pairing, but for its message. */
  lemma CommandFrame(env: Env, s: State, d: Device, on: bool)
    ensures var t := Closed(s, d); t == s.(conns := t.conns)
    ensures var t := Forgotten(env, s, d); t == s.(trust := t.trust, conns := t.conns)
    ensures var t := BlockedSet(env, s, d, on); t == s.(trust := t.trust, conns := t.conns)
    ensures var t := AutoAcceptSet(env, s, d, on); t == s.(trust := t.trust)
  {
    hide KeyFor, Closed;
    ClosedFrame(s, d);
    if KeyFor(env, s, d).Some? {
      var key := KeyFor(env, s, d).value;
      ClosedFrame(s.(trust := s.trust - {key}), d);
      if key in s.trust {
        ClosedFrame(s.(trust := s.trust[key := s.trust[key].(blocked := on)]), d);
      }
    }
  }

  lemma PairingFrame(s: State, d: Device, accept: bool)
    ensures var t := PairingAnswered(s, d, accept); t == s.(trust := t.trust, conns := t.conns, sent := t.sent)
  {
    hide SendRaw, PairingFinalized, Closed;
    if d in s.conns {
      var agreed := s.(conns := s.conns[d := s.conns[d].(localOk := true)]);
      RawViews(s, d, PairReject);
      ClosedFrame(SendRaw(s, d, PairReject), d);
      RawViews(agreed, d, PairAccept);
      FinalizingViews(SendRaw(agreed, d, PairAccept), d);
    }
  }

  lemma AbortSaysNothing(s: State, id: TransferId)
    ensures IncomingAborted(s, id).sent == s.sent && IncomingAborted(s, id).conns == s.conns
    ensures DoneReceived(s, id).sent == s.sent
  {
    hide AbortedAll;
  }

  lemma PairingSays(s: State, d: Device, accept: bool)
    ensures PairingAnswered(s, d, accept).sent == s.sent + Told(s, d, if accept then PairAccept else PairReject)
    ensures PeerAccepted(s, d).sent == s.sent
  {
    hide SendRaw, PairingFinalized, Closed;
    if d in s.conns {
      var agreed := s.(conns := s.conns[d := s.conns[d].(localOk := true)]);
      RawIsTold(s, d, PairReject);
      ClosedFrame(SendRaw(s, d, PairReject), d);
      RawIsTold(agreed, d, PairAccept);
      FinalizingViews(SendRaw(agreed, d, PairAccept), d);
    }
    FinalizingViews(s, d);
  }

  lemma AnswerSays(s: State, id: TransferId, accept: bool, works: bool)
    requires id in s.inbox.incoming && s.inbox.incoming[id].id == id
    ensures OfferAnswered(s, id, accept, works).sent
         == s.sent + Told(s, s.inbox.incoming[id].from, if accept && works then FileAccept(id) else FileReject(id))
  {
    hide IncomingAborted, SendRaw;
    var t := s.inbox.incoming[id];
    var (u, f, ok) := Accepted(t, s.inbox.folders, works);
    var begun := s.(inbox := WithTransfer(s.inbox, u, f));
    AbortSaysNothing(s, id);
    AbortSaysNothing(begun, id);
    RawIsTold(IncomingAborted(s, id), t.from, FileReject(id));
    RawIsTold(IncomingAborted(begun, id), t.from, FileReject(id));
    RawIsTold(begun, t.from, FileAccept(id));
  }

  lemma OfferSays(env: Env, s: State, c: ConnId, m: Message, luck: DiskLuck)
    requires m.FileOffer? && c in s.live
    ensures var d := env.deviceOf(s.live[c]);
            OfferReceived(s, d, s.live[c], m, luck).sent == s.sent + Replies(env, s, c, m, luck)
  {
    hide OfferAnswered, SendRaw, Told;
    var d, key := env.deviceOf(s.live[c]), s.live[c];
    RawIsTold(s, d, FileReject(m.id));
    var t := Offered(m.id, d, key, m.name, m.size, m.sha);
    assert t.id == m.id && t.from == d;
    hide Offered;
    var taken := s.(inbox := OfferTaken(s.inbox, t));
    AnswerSays(taken, m.id, true, luck.opens);
    TellingLooksAtConns(s, taken, d);
  }

  lemma TellingLooksAtConns(s: State, t: State, d: Device)
    requires t.conns == s.conns
    ensures forall m :: Told(t, d, m) == Told(s, d, m)
    ensures Authorised(t, d) == Authorised(s, d)
  {
  }

  /** Whether a chunk is refused, and why, in the state of a running engine. */
  lemma ChunkVerdict(t: Transfer, x: Inbox, offset: nat, data: Bytes, luck: DiskLuck)
    requires Held(t, x.folders)
    ensures var (u, f, r) := ChunkWritten(t, x.folders, offset, data, luck.writes);
            && (r.Err? <==> !t.accepted || offset != t.received || t.received + |data| > t.size || !luck.writes)
            && (r.Ok? ==> u == t.(received := t.received + |data|, hashed := t.hashed + data) && u.id in f.parts)
  {
  }

  lemma CompletedSays(env: Env, s: State, d: Device, t: Transfer, works: bool)
    requires t.id in s.inbox.folders.parts && t.received == t.size
    ensures Completed(env, s, d, t, works).sent
         == s.sent + if works && env.sha256(t.hashed) == t.sha then [] else Told(s, d, FileError(t.id))
  {
    hide Removed, Naming.UniqueName;
  }

  lemma ChunkSays(env: Env, s: State, c: ConnId, m: Message, luck: DiskLuck)
    requires Structured(env, s) && m.FileChunk? && c in s.live
    ensures var d := env.deviceOf(s.live[c]);
            ChunkReceived(env, s, d, s.live[c], m, luck).sent == s.sent + Replies(env, s, c, m, luck)
  {
    hide LinksOk, TrustOk, Structure, Placed, Counted, Held, ChunkWritten, Completed, IncomingAborted, SendRaw, Told;
    var d, key := env.deviceOf(s.live[c]), s.live[c];
    if m.id in s.inbox.incoming && s.inbox.incoming[m.id].fromKey == key {
      var t := s.inbox.incoming[m.id];
      StructureParts(env.sha256, s.inbox, s.conns);
      PlacedParts(s.inbox, s.conns, m.id);
      OwnerIsPeer(env, s, t);
      ChunkVerdict(t, s.inbox, m.offset, m.data, luck);
      var (u, f, r) := ChunkWritten(t, s.inbox.folders, m.offset, m.data, luck.writes);
      var written := s.(inbox := WithTransfer(s.inbox, u, f));
      RawIsTold(written, d, FileError(m.id));
      AbortSaysNothing(SendRaw(written, d, FileError(m.id)), m.id);
      TellingLooksAtConns(s, written, d);
      if r.Ok? && u.received == u.size {
        CompletedSays(env, written, d, u, luck.publishes);
      }
    }
  }

  lemma OwnerIsPeer(env: Env, s: State, t: Transfer)
    requires Base(env, s) && Owned(t, s.conns)
    ensures t.from == env.deviceOf(t.fromKey)
  {
  }

  lemma HandledSays(env: Env, s: State, c: ConnId, m: Message, luck: DiskLuck)
    requires Structured(env, s) && c in s.live
    ensures Handled(env, s, env.deviceOf(s.live[c]), s.live[c], m, luck).0.sent
         == s.sent + if Heard(env, s, c, m) then Replies(env, s, c, m, luck) else []
  {
    hide Structured, OfferReceived, ChunkReceived, DoneReceived, IncomingAborted, PeerAccepted, SendRaw, Told, OwnChunk;
    var d := env.deviceOf(s.live[c]);
    if Heard(env, s, c, m) {
      match m
      case Ping => RawIsTold(s, d, Pong);
      case PairAccept => PairingSays(s, d, true);
      case Text(id) =>
        RawIsTold(s.(texts := s.texts + [(d, id)]), d, TextAck(id));
        TellingLooksAtConns(s, s.(texts := s.texts + [(d, id)]), d);
      case FileOffer(_, _, _, _) => OfferSays(env, s, c, m, luck);
      case FileChunk(_, _, _) => ChunkSays(env, s, c, m, luck);
      case FileDone(id) => AbortSaysNothing(s, id);
      case FileCancel(id) => AbortSaysNothing(Signalled(s, id, Cancel), id);
      case FileError(id) => AbortSaysNothing(Signalled(s, id, Cancel), id);
      case _ =>
    }
  }

  lemma OpenSays(env: Env, s: State, key: Key, weDialed: bool, expected: Option<Key>)
    ensures Opened(env, s, key, weDialed, expected).sent == s.sent + Says(env, s, Open(key, weDialed, expected))
  {
  }

  lemma DeliverSays(env: Env, s: State, c: ConnId, m: Message, luck: DiskLuck)
    requires Structured(env, s)
    ensures Delivered(env, s, c, m, luck).sent == s.sent + Says(env, s, Deliver(c, m, luck))
  {
    hide Structured, Handled, Replies, AbortedAll, SendsCancelled;
    if c in s.live {
      HandledSays(env, s, c, m, luck);
    }
  }

  lemma CancelSays(env: Env, s: State, id: TransferId)
    ensures TransferCancelled(s, id).sent == s.sent + Says(env, s, CancelTransfer(id))
  {
    hide IncomingAborted, SendRaw, SendTo, Told;
    if id in s.outgoing {
      var flagged := s.(outgoing := s.outgoing[id := s.outgoing[id].(cancelled := true)]);
      RawIsTold(flagged, s.outgoing[id].to, FileCancel(id));
      TellingLooksAtConns(s, flagged, s.outgoing[id].to);
    } else if id in s.inbox.incoming {
      RawIsTold(s, s.inbox.incoming[id].from, FileCancel(id));
      AbortSaysNothing(SendRaw(s, s.inbox.incoming[id].from, FileCancel(id)), id);
    }
  }

  /** One action makes the engine send exactly what `Says` lists. */
  lemma StepSays(env: Env, s: State, a: Action)
    requires Structured(env, s)
    ensures Step(env, s, a).sent == s.sent + Says(env, s, a)
  {
    hide LinksOk, TrustOk, Structure, Opened, Delivered, Says, PairingAnswered, OfferAnswered, TransferCancelled, SendTo, Closed,
         Forgotten, BlockedSet, AutoAcceptSet, AbortedAll, SendsCancelled;
    OtherSays(env, s, a);
    match a
    case Open(key, weDialed, expected) => OpenSays(env, s, key, weDialed, expected);
    case Deliver(c, m, luck) => DeliverSays(env, s, c, m, luck);
    case AnswerPairing(d, accept) => PairingSays(s, d, accept);
    case AnswerOffer(id, accept, opens) =>
      if id in s.inbox.incoming {
        IdsMatch(env, s, id);
        AnswerSays(s, id, accept, opens);
      } else {
        NoAnswer(s, id, accept, opens);
      }
    case CancelTransfer(id) => CancelSays(env, s, id);
    case Send(d, m) => RawIsTold(s, d, m);
    case Disconnect(d) => CommandFrame(env, s, d, true);
    case Forget(d) => CommandFrame(env, s, d, true);
    case SetBlocked(d, on) => CommandFrame(env, s, d, on);
    case SetAutoAccept(d, on) => CommandFrame(env, s, d, on);
    case _ =>
  }

  lemma NoAnswer(s: State, id: TransferId, accept: bool, works: bool)
    requires id !in s.inbox.incoming
    ensures OfferAnswered(s, id, accept, works) == s
  {
  }

  /** The cases of `Says` that need no handler. */
  lemma OtherSays(env: Env, s: State, a: Action)
    ensures a.AnswerPairing? ==> Says(env, s, a) == Told(s, a.device, if a.accept then PairAccept else PairReject)
    ensures a.Send? ==> Says(env, s, a) == if Authorised(s, a.device) then Told(s, a.device, a.message) else []
    ensures a.AnswerOffer? && a.transfer !in s.inbox.incoming ==> Says(env, s, a) == []
    ensures a.AnswerOffer? && a.transfer in s.inbox.incoming ==>
              var answer := if a.accept && a.opens then FileAccept(a.transfer) else FileReject(a.transfer);
              Says(env, s, a) == Told(s, s.inbox.incoming[a.transfer].from, answer)
    ensures !(a.Open? || a.Deliver? || a.AnswerPairing? || a.AnswerOffer? || a.CancelTransfer? || a.Send?) ==> Says(env, s, a) == []
  {
  }

  /** Over every run the engine has sent exactly what the actions call for, in order. */
  lemma {:induction false} EveryRunSays(env: Env, s: State, actions: seq<Action>)
    requires Fresh(s)
    ensures After(env, s, actions).sent == s.sent + SaidIn(env, s, actions)
    decreases |actions|
  {
    hide Step, Says, Structured;
    if actions != [] {
      var n := |actions| - 1;
      EveryRunSays(env, s, actions[..n]);
      EveryRunKeepsInv(env, s, actions[..n]);
      StepSays(env, After(env, s, actions[..n]), actions[n]);
    }
  }
}
