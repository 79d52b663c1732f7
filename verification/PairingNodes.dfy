/** The desktop and the phone as ends of one pairing: their handlers are the moves of the abstract pair. */
module PairingNodes {
  import opened Prelude
  import opened Transfers
  import opened Engines
  import EI = EngineInvariant
  import P = Pairing

  // ---- the phone ---------------------------------------------------------------------

  /** One connection of the phone engine, its trust store and what it has sent on the connection. */
  datatype PhoneState = PhoneState(
    trust: map<Key, Trusted>,
    key: Key,
    localOk: bool,
    remoteOk: bool,
    authorised: bool,
    closed: bool,
    sent: seq<Message>)

  function PhoneSent(s: PhoneState, messages: seq<Message>): PhoneState {
    if s.closed then s else s.(sent := s.sent + messages)
  }

  function PhoneFinalized(s: PhoneState): PhoneState {
    if s.authorised || !s.localOk || !s.remoteOk then s
    else match TrustAdded(s.trust, s.key)
      case None => s
      case Some(trust) => s.(trust := trust, authorised := true)
  }

  function PhoneAnswered(s: PhoneState, accept: bool): PhoneState {
    if !accept then PhoneSent(s, [PairReject]).(closed := true)
    else PhoneFinalized(PhoneSent(s.(localOk := true), [PairAccept]))
  }

  /** Answers of the file handlers, which only authorised peers reach. */
  predicate FileReplies(messages: seq<Message>) {
    forall m :: m in messages ==> !m.AllowedBeforePairing()
  }

  /** `true` when the message ends the connection. */
  function PhoneHandled(s: PhoneState, m: Message, replies: seq<Message>): (PhoneState, bool) {
    if !s.authorised && !m.AllowedBeforePairing() then (s, true)
    else match m
      case Ping => (PhoneSent(s, [Pong]), false)
      case Pong => (s, false)
      case Hello => (s, false)
      case PairRequest => (s, false)
      case PairAccept => (PhoneFinalized(s.(remoteOk := true)), false)
      case PairReject => (s, true)
      case Text(id) => (PhoneSent(s, [TextAck(id)]), false)
      case TextAck(_) => (s, false)
      case _ => (PhoneSent(s, replies), false)
  }

  class PhoneNode {
    var trust: map<Key, Trusted>
    const key: Key
    var localOk: bool
    var remoteOk: bool
    var authorised: bool
    var closed: bool
    var sent: seq<Message>

    /** A connection is set up only for a key that is not blocked. */
    constructor (trust: map<Key, Trusted>, key: Key)
      requires key in trust ==> !trust[key].blocked
      ensures Model() == PhoneState(trust, key, false, false, key in trust, false, [])
    {
      this.trust, this.key := trust, key;
      localOk, remoteOk, authorised, closed := false, false, key in trust, false;
      sent := [];
    }

    ghost function Model(): PhoneState
      reads this
    {
      PhoneState(trust, key, localOk, remoteOk, authorised, closed, sent)
    }

    method Send(messages: seq<Message>)
      modifies this`sent
      ensures Model() == PhoneSent(old(Model()), messages)
    {
      if !closed {
        sent := sent + messages;
      }
    }

    method RespondPairing(accept: bool)
      modifies this
      ensures Model() == PhoneAnswered(old(Model()), accept)
    {
      if !accept {
        Send([PairReject]);
        closed := true;
        return;
      }
      localOk := true;
      Send([PairAccept]);
      TryFinalizePairing();
    }

    method TryFinalizePairing()
      modifies this`trust, this`authorised
      ensures Model() == PhoneFinalized(old(Model()))
    {
      if authorised || !localOk || !remoteOk {
        return;
      }
      if key in trust {
        trust := trust[key := trust[key].(blocked := false)];
      } else {
        if |trust| >= MAX_TRUSTED_DEVICES {
          return;
        }
        trust := trust[key := Trusted(false, false)];
      }
      authorised := true;
    }

    method OnMessage(m: Message, replies: seq<Message>) returns (stop: bool)
      modifies this
      ensures (Model(), stop) == PhoneHandled(old(Model()), m, replies)
    {
      if !authorised && !m.AllowedBeforePairing() {
        return true;
      }
      stop := false;
      match m
      case Ping => Send([Pong]);
      case Pong =>
      case Hello =>
      case PairRequest =>
      case PairAccept =>
        remoteOk := true;
        TryFinalizePairing();
      case PairReject => stop := true;
      case Text(id) => Send([TextAck(id)]);
      case TextAck(_) =>
      case _ => Send(replies);
    }
  }

  /** Whatever the phone is told or asked, it stores only the connection's own key, agreed by both, and asks about its files. */
  lemma PhoneStoresCautiously(p: PhoneState, m: Message, replies: seq<Message>, accept: bool, k: Key)
    ensures forall q :: q in {PhoneAnswered(p, accept), PhoneHandled(p, m, replies).0} && k !in p.trust && k in q.trust ==>
              k == p.key && q.localOk && q.remoteOk && q.authorised && q.trust[k] == Trusted(false, false)
    ensures forall q :: q in {PhoneAnswered(p, accept), PhoneHandled(p, m, replies).0} && k in p.trust ==>
              k in q.trust && q.trust[k].autoAccept == p.trust[k].autoAccept && (k != p.key ==> q.trust[k] == p.trust[k])
  {
  }

  // ---- either platform -----------------------------------------------------------------

  /** A node with the connection to its peer: on the desktop, connection `c` of the whole engine. */
  datatype Node = Desktop(env: Env, s: State, c: ConnId) | Phone(p: PhoneState)

  function Peer(n: Node): Device
    requires n.Desktop? && n.c in n.s.live
  {
    n.env.deviceOf(n.s.live[n.c])
  }

  /** The connection is up, and nobody has closed it. */
  ghost predicate Up(n: Node) {
    match n
    case Desktop(env, s, c) => EI.Base(env, s) && c in s.live && Peer(n) in s.conns && !s.conns[Peer(n)].closed
    case Phone(p) => !p.closed
  }

  function ViewOf(n: Node): P.View
    requires n.Desktop? ==> n.c in n.s.live && Peer(n) in n.s.conns
  {
    match n
    case Desktop(_, s, _) => var k := s.conns[Peer(n)]; P.View(k.localOk, k.remoteOk, k.authorised)
    case Phone(p) => P.View(p.localOk, p.remoteOk, p.authorised)
  }

  /** The store holds the peer's key or can take it. */
  predicate HasRoom(trust: map<Key, Trusted>, key: Key) {
    key in trust || |trust| < MAX_TRUSTED_DEVICES
  }

  function RoomOf(n: Node): bool
    requires n.Desktop? ==> n.c in n.s.live && Peer(n) in n.s.conns
  {
    match n
    case Desktop(_, s, _) => HasRoom(s.trust, s.conns[Peer(n)].key)
    case Phone(p) => HasRoom(p.trust, p.key)
  }

  function Abstract(m: Message): P.Packet {
    if m.PairAccept? then P.Agree else if m.AllowedBeforePairing() then P.Chatter else P.Data
  }

  function Abstracts(messages: seq<Message>): (r: seq<P.Packet>)
    ensures |r| == |messages|
  {
    seq(|messages|, i requires 0 <= i < |messages| => Abstract(messages[i]))
  }

  /** What the desktop has sent to device `d` since `before`, in order. */
  function To(d: Device, sent: seq<Sent>): seq<Message>
    decreases |sent|
  {
    if sent == [] then [] else
      var n := |sent| - 1;
      To(d, sent[..n]) + if sent[n].to == d then [sent[n].message] else []
  }

  function NewTo(d: Device, before: seq<Sent>, after: seq<Sent>): seq<Message> {
    if |before| <= |after| then To(d, after[|before|..]) else []
  }

  function NewOf(before: seq<Message>, after: seq<Message>): seq<Message> {
    if |before| <= |after| then after[|before|..] else []
  }

  /** The node's user accepts; what goes out on the connection. */
  function NodeAccepts(n: Node): (Node, seq<Message>)
    requires n.Desktop? ==> n.c in n.s.live
  {
    match n
    case Desktop(env, s, c) =>
      var t := PairingAnswered(s, Peer(n), true);
      (n.(s := t), NewTo(Peer(n), s.sent, t.sent))
    case Phone(p) =>
      var q := PhoneAnswered(p, true);
      (Phone(q), NewOf(p.sent, q.sent))
  }

  /** The node sends `m` on its own account: data through the authorised path only. */
  function NodeSays(n: Node, m: Message): (Node, seq<Message>)
    requires n.Desktop? ==> n.c in n.s.live
  {
    match n
    case Desktop(env, s, c) =>
      var t := if m.AllowedBeforePairing() then SendRaw(s, Peer(n), m) else SendTo(s, Peer(n), m);
      (n.(s := t), NewTo(Peer(n), s.sent, t.sent))
    case Phone(p) =>
      var q := if m.AllowedBeforePairing() || p.authorised then PhoneSent(p, [m]) else p;
      (Phone(q), NewOf(p.sent, q.sent))
  }

  /** The node handles `m`; `true` when it ends the connection over it. */
  function NodeTakes(n: Node, m: Message, luck: DiskLuck, replies: seq<Message>): (Node, seq<Message>, bool)
    requires n.Desktop? ==> n.c in n.s.live
  {
    match n
    case Desktop(env, s, c) =>
      var t := Delivered(env, s, c, m, luck);
      (n.(s := t), NewTo(Peer(n), s.sent, t.sent), !Handled(env, s, Peer(n), s.live[c], m, luck).1)
    case Phone(p) =>
      var (q, stop) := PhoneHandled(p, m, replies);
      (Phone(q), NewOf(p.sent, q.sent), stop)
  }

  // ---- what the desktop sends ----------------------------------------------------------------

  /** Neither an agreement nor a refusal to pair. */
  predicate Plain(m: Message) {
    !m.PairAccept? && !m.PairReject?
  }

  /** More has been sent, none of it about pairing. */
  predicate Quietly(before: seq<Sent>, after: seq<Sent>) {
    before <= after && forall i :: |before| <= i < |after| ==> Plain(after[i].message)
  }

  lemma SendingIsQuiet(s: State, d: Device, m: Message)
    requires Plain(m)
    ensures Quietly(s.sent, SendRaw(s, d, m).sent)
  {
  }

  lemma AnsweringIsQuiet(s: State, id: TransferId, accept: bool, works: bool)
    ensures Quietly(s.sent, OfferAnswered(s, id, accept, works).sent)
    ensures IncomingAborted(s, id).sent == s.sent
  {
    hide AbortedAll, Accepted, Quietly, SendRaw, WithTransfer;
    NothingIsQuiet(s.sent);
    if id in s.inbox.incoming {
      var t := s.inbox.incoming[id];
      var (u, f, _) := Accepted(t, s.inbox.folders, works);
      var begun := s.(inbox := WithTransfer(s.inbox, u, f));
      SendingIsQuiet(IncomingAborted(s, id), t.from, FileReject(id));
      SendingIsQuiet(begun, t.from, FileAccept(id));
      SendingIsQuiet(IncomingAborted(begun, id), t.from, FileReject(id));
    }
  }

  lemma OfferIsQuiet(s: State, d: Device, key: Key, m: Message, luck: DiskLuck)
    requires m.FileOffer?
    ensures Quietly(s.sent, OfferReceived(s, d, key, m, luck).sent)
  {
    hide OfferAnswered, Offered, OfferTaken;
    var taken := s.(inbox := OfferTaken(s.inbox, Offered(m.id, d, key, m.name, m.size, m.sha)));
    AnsweringIsQuiet(taken, m.id, true, luck.opens);
  }

  lemma CompletingIsQuiet(env: Env, s: State, d: Device, t: Transfer, works: bool)
    ensures Quietly(s.sent, Completed(env, s, d, t, works).sent)
  {
    hide Finished, Removed;
  }

  lemma ChunkIsQuiet(env: Env, s: State, d: Device, key: Key, m: Message, luck: DiskLuck)
    requires m.FileChunk?
    ensures Quietly(s.sent, ChunkReceived(env, s, d, key, m, luck).sent)
  {
    hide ChunkWritten, IncomingAborted, WithTransfer, Completed, SendRaw, Quietly;
    SendingIsQuiet(s, d, FileError(m.id));
    NothingIsQuiet(s.sent);
    if m.id in s.inbox.incoming {
      var (u, f, r) := ChunkWritten(s.inbox.incoming[m.id], s.inbox.folders, m.offset, m.data, luck.writes);
      var written := s.(inbox := WithTransfer(s.inbox, u, f));
      SendingIsQuiet(written, d, FileError(m.id));
      AnsweringIsQuiet(SendRaw(written, d, FileError(m.id)), m.id, false, false);
      CompletingIsQuiet(env, written, d, u, luck.publishes);
    }
  }

  lemma NothingIsQuiet(sent: seq<Sent>)
    ensures Quietly(sent, sent)
  {
  }

  lemma HandlingIsQuiet(env: Env, s: State, d: Device, key: Key, m: Message, luck: DiskLuck)
    ensures Quietly(s.sent, Handled(env, s, d, key, m, luck).0.sent)
  {
    hide OfferReceived, ChunkReceived, IncomingAborted, PairingFinalized, DoneReceived;
    match m
    case FileOffer(_, _, _, _) => OfferIsQuiet(s, d, key, m, luck);
    case FileChunk(_, _, _) => ChunkIsQuiet(env, s, d, key, m, luck);
    case FileDone(id) => DoneIsQuiet(s, id);
    case FileCancel(id) => AnsweringIsQuiet(Signalled(s, id, Cancel), id, false, false);
    case FileError(id) => AnsweringIsQuiet(Signalled(s, id, Cancel), id, false, false);
    case PairAccept => FinalizingSendsNothing(s, d);
    case _ =>
  }

  lemma DoneIsQuiet(s: State, id: TransferId)
    ensures DoneReceived(s, id).sent == s.sent
  {
    hide IncomingAborted;
    AnsweringIsQuiet(s, id, false, false);
  }

  lemma FinalizingSendsNothing(s: State, d: Device)
    ensures PairingFinalized(s, d).sent == s.sent && PeerAccepted(s, d).sent == s.sent
  {
  }

  /** Before pairing, a peer can elicit nothing but a Pong. */
  lemma UnpairedElicitsPongs(env: Env, s: State, d: Device, key: Key, m: Message, luck: DiskLuck)
    requires m.AllowedBeforePairing()
    ensures var sent := Handled(env, s, d, key, m, luck).0.sent;
            sent == s.sent || sent == s.sent + [Sent(d, Pong)]
  {
    hide PairingFinalized;
    FinalizingSendsNothing(s, d);
  }

  lemma {:induction false} ToKeeps(d: Device, sent: seq<Sent>)
    requires forall i :: 0 <= i < |sent| ==> Plain(sent[i].message)
    ensures forall m :: m in To(d, sent) ==> Plain(m)
    decreases |sent|
  {
    if sent != [] {
      ToKeeps(d, sent[..|sent| - 1]);
    }
  }

  // ---- each handler is a move ------------------------------------------------------------------

  lemma AcceptRefines(n: Node)
    requires Up(n)
    ensures var (after, out) := NodeAccepts(n);
            && Up(after) && out == [PairAccept]
            && ViewOf(after) == P.UserAccepts(ViewOf(n), RoomOf(n)) && RoomOf(after) == RoomOf(n)
  {
    match n
    case Desktop(env, s, c) =>
      var d := Peer(n);
      EI.PairingKeepsInv(env, s, d, true);
      hide EI.Base;
      var agreed := SendRaw(s.(conns := s.conns[d := s.conns[d].(localOk := true)]), d, PairAccept);
      assert agreed.sent == s.sent + [Sent(d, PairAccept)];
      FinalizingSendsNothing(agreed, d);
      assert agreed.sent[|s.sent|..] == [Sent(d, PairAccept)];
      assert To(d, [Sent(d, PairAccept)]) == [PairAccept];
    case Phone(p) =>
      assert (p.sent + [PairAccept])[|p.sent|..] == [PairAccept];
  }

  lemma SayRefines(n: Node, m: Message)
    requires Up(n) && Plain(m)
    ensures var (after, out) := NodeSays(n, m);
            && Up(after) && ViewOf(after) == ViewOf(n) && RoomOf(after) == RoomOf(n)
            && P.Permitted(ViewOf(n), Abstracts(out)) && PairReject !in out
  {
    match n
    case Desktop(env, s, c) =>
      var d := Peer(n);
      EI.SendingKeepsLinks(s, d, m);
      assert (s.sent + [Sent(d, m)])[|s.sent|..] == [Sent(d, m)];
      assert To(d, [Sent(d, m)]) == [m];
      assert s.sent[|s.sent|..] == [];
    case Phone(p) =>
      assert (p.sent + [m])[|p.sent|..] == [m];
      assert p.sent[|p.sent|..] == [];
  }

  lemma DataIsPermitted(v: P.View, messages: seq<Message>)
    requires forall m :: m in messages ==> Plain(m) && (m.AllowedBeforePairing() || v.authorised)
    ensures P.Permitted(v, Abstracts(messages))
  {
    forall p | p in Abstracts(messages)
      ensures p.Chatter? || (p.Data? && v.authorised)
    {
      var i :| 0 <= i < |messages| && p == Abstract(messages[i]);
      assert messages[i] in messages;
    }
  }

  lemma PhoneTakeRefines(p: PhoneState, m: Message, replies: seq<Message>)
    requires !p.closed && !m.PairReject? && FileReplies(replies)
    ensures var n := Phone(p);
            var (after, out, stop) := NodeTakes(n, m, DiskLuck(true, true, true), replies);
            && (stop <==> Abstract(m).Data? && !ViewOf(n).authorised)
            && (!stop ==>
                 && Up(after) && RoomOf(after) == RoomOf(n)
                 && ViewOf(after) == P.Takes(ViewOf(n), RoomOf(n), Abstract(m))
                 && P.Permitted(ViewOf(after), Abstracts(out)) && PairReject !in out)
  {
    assert (p.sent + [Pong])[|p.sent|..] == [Pong];
    assert (p.sent + replies)[|p.sent|..] == replies;
    assert p.sent[|p.sent|..] == [];
    if m.Text? {
      assert (p.sent + [TextAck(m.id)])[|p.sent|..] == [TextAck(m.id)];
    }
    if p.authorised {
      DataIsPermitted(P.View(p.localOk, p.remoteOk, true), replies);
    }
  }

  lemma DesktopHearsAgreement(env: Env, s: State, c: ConnId, luck: DiskLuck)
    requires Up(Desktop(env, s, c))
    ensures var n := Desktop(env, s, c);
            var (after, out, stop) := NodeTakes(n, PairAccept, luck, []);
            && !stop && Up(after) && RoomOf(after) == RoomOf(n)
            && ViewOf(after) == P.PeerAgrees(ViewOf(n), RoomOf(n))
  {
    var d, key := env.deviceOf(s.live[c]), s.live[c];
    EI.LiveIsConnected(env, s, c);
    EI.PairAcceptHandled(env, s, d, key, luck);
    EI.DeliverKeepsInv(env, s, c, PairAccept, luck);
    TrustTakesKey(s.trust, key);
    hide EI.Base, Handled, TornDown, TrustAdded, HasRoom, NewTo;
  }

  lemma DesktopTakesOther(env: Env, s: State, c: ConnId, m: Message, luck: DiskLuck)
    requires Up(Desktop(env, s, c)) && Plain(m)
    ensures var n := Desktop(env, s, c);
            var (after, out, stop) := NodeTakes(n, m, luck, []);
            && (stop <==> Abstract(m).Data? && !ViewOf(n).authorised)
            && (!stop ==> Up(after) && RoomOf(after) == RoomOf(n) && ViewOf(after) == ViewOf(n))
  {
    UpIsConnected(Desktop(env, s, c));
    var d, key := env.deviceOf(s.live[c]), s.live[c];
    EI.LiveIsConnected(env, s, c);
    HandledStops(env, s, d, key, m, luck);
    EI.HandledKeepsLinks(env, s, d, key, m, luck);
    hide EI.Base, Handled, TornDown, Up, ViewOf, RoomOf;
    SameLinksSameView(env, s, Handled(env, s, d, key, m, luck).0, c);
  }

  lemma SameLinksSameView(env: Env, s: State, t: State, c: ConnId)
    requires Up(Desktop(env, s, c)) && EI.SameLinks(s, t)
    ensures Up(Desktop(env, t, c))
    ensures ViewOf(Desktop(env, t, c)) == ViewOf(Desktop(env, s, c)) && RoomOf(Desktop(env, t, c)) == RoomOf(Desktop(env, s, c))
  {
  }

  lemma UpIsConnected(n: Node)
    requires Up(n)
    ensures n.Desktop? ==> n.c in n.s.live && Peer(n) in n.s.conns && EI.Base(n.env, n.s)
  {
  }

  lemma HandledStops(env: Env, s: State, d: Device, key: Key, m: Message, luck: DiskLuck)
    requires d in s.conns && !m.PairReject?
    ensures !Handled(env, s, d, key, m, luck).1 <==> !m.AllowedBeforePairing() && !s.conns[d].authorised
  {
  }

  /** Storing the key succeeds exactly when there is room, and leaves room for it. */
  lemma TrustTakesKey(trust: map<Key, Trusted>, key: Key)
    ensures TrustAdded(trust, key).Some? <==> HasRoom(trust, key)
    ensures TrustAdded(trust, key).Some? ==> HasRoom(TrustAdded(trust, key).value, key)
  {
  }

  /** What the desktop sends back is permitted by its view after handling the message. */
  lemma DesktopRepliesArePermitted(env: Env, s: State, c: ConnId, m: Message, luck: DiskLuck)
    requires Up(Desktop(env, s, c)) && !m.PairReject?
    requires Abstract(m).Data? ==> ViewOf(Desktop(env, s, c)).authorised
    ensures var (after, out, stop) := NodeTakes(Desktop(env, s, c), m, luck, []);
            && (m.AllowedBeforePairing() ==> out == [] || out == [Pong])
            && forall x :: x in out ==> Plain(x)
  {
    var d, key := env.deviceOf(s.live[c]), s.live[c];
    HandledStops(env, s, d, key, m, luck);
    HandlingIsQuiet(env, s, d, key, m, luck);
    hide EI.Base, Handled, TornDown;
    var t := Handled(env, s, d, key, m, luck).0;
    ToKeeps(d, t.sent[|s.sent|..]);
    if m.AllowedBeforePairing() {
      UnpairedElicitsPongs(env, s, d, key, m, luck);
      assert (s.sent + [Sent(d, Pong)])[|s.sent|..] == [Sent(d, Pong)];
      assert s.sent[|s.sent|..] == [];
      assert To(d, [Sent(d, Pong)]) == [Pong];
    }
  }

  lemma DesktopAnswers(env: Env, s: State, c: ConnId, m: Message, luck: DiskLuck)
    requires Up(Desktop(env, s, c)) && (m.Ping? || (m.Text? && ViewOf(Desktop(env, s, c)).authorised))
    ensures var (after, out, stop) := NodeTakes(Desktop(env, s, c), m, luck, []);
            !stop && out == [if m.Ping? then Pong else TextAck(m.id)]
  {
    var d, answer := env.deviceOf(s.live[c]), if m.Ping? then Pong else TextAck(m.id);
    HandledStops(env, s, d, s.live[c], m, luck);
    assert Handled(env, s, d, s.live[c], m, luck).0.sent == s.sent + [Sent(d, answer)];
    hide EI.Base, Handled;
    assert (s.sent + [Sent(d, answer)])[|s.sent|..] == [Sent(d, answer)];
    assert To(d, [Sent(d, answer)]) == [answer];
  }

  /** On either platform a ping is answered, and a text of an authorised peer is acknowledged, each exactly once. */
  lemma EitherNodeAnswers(n: Node, m: Message, luck: DiskLuck)
    requires Up(n) && (m.Ping? || (m.Text? && ViewOf(n).authorised))
    ensures var (after, out, stop) := NodeTakes(n, m, luck, []);
            !stop && out == [if m.Ping? then Pong else TextAck(m.id)]
  {
    match n
    case Desktop(env, s, c) => DesktopAnswers(env, s, c, m, luck);
    case Phone(p) =>
      var answer := if m.Ping? then Pong else TextAck(m.id);
      assert (p.sent + [answer])[|p.sent|..] == [answer];
  }

  /** The node's user refuses; what goes out on the connection. */
  function NodeRefuses(n: Node): (Node, seq<Message>)
    requires n.Desktop? ==> n.c in n.s.live
  {
    match n
    case Desktop(env, s, c) =>
      var t := PairingAnswered(s, Peer(n), false);
      (n.(s := t), NewTo(Peer(n), s.sent, t.sent))
    case Phone(p) =>
      var q := PhoneAnswered(p, false);
      (Phone(q), NewOf(p.sent, q.sent))
  }

  ghost predicate IsClosed(n: Node) {
    match n
    case Desktop(env, s, c) => c in s.live && Peer(n) in s.conns && s.conns[Peer(n)].closed
    case Phone(p) => p.closed
  }

  /**
   * On either platform a refusal sends exactly one PairReject and closes the connection, storing nothing; and a
   * peer that refuses, or that the node has not authorised and sends data, ends it.
   */
  lemma EitherNodeRefuses(n: Node, m: Message, luck: DiskLuck, replies: seq<Message>)
    requires Up(n)
    ensures var (after, out) := NodeRefuses(n);
            && out == [PairReject] && IsClosed(after)
            && (match n case Desktop(_, s, _) => after.s.trust == s.trust case Phone(p) => after.p.trust == p.trust)
    ensures NodeTakes(n, m, luck, replies).2 <==> m.PairReject? || (Abstract(m).Data? && !ViewOf(n).authorised)
  {
    match n
    case Desktop(env, s, c) =>
      var d := Peer(n);
      assert (s.sent + [Sent(d, PairReject)])[|s.sent|..] == [Sent(d, PairReject)];
      assert To(d, [Sent(d, PairReject)]) == [PairReject];
      if m.PairReject? {
        assert !Handled(env, s, d, s.live[c], m, luck).1;
      } else {
        HandledStops(env, s, d, s.live[c], m, luck);
      }
      hide Handled, Delivered, EI.Base;
    case Phone(p) =>
      assert (p.sent + [PairReject])[|p.sent|..] == [PairReject];
  }

  // ---- two nodes, joined ---------------------------------------------------------------------------

  /** `near` acts; a channel holds what is on its way to its end. `stopped`: an end refused data. */
  datatype Duo = Duo(near: Node, far: Node, toNear: seq<Message>, toFar: seq<Message>, stopped: bool)

  datatype Move =
    | Accept
    | Say(message: Message)
    | Take(luck: DiskLuck, replies: seq<Message>)

  function Swapped(d: Duo): Duo {
    Duo(d.far, d.near, d.toFar, d.toNear, d.stopped)
  }

  ghost predicate Connected(d: Duo) {
    Up(d.near) && Up(d.far) && PairReject !in d.toNear && PairReject !in d.toFar
  }

  /** No end rejects pairing or closes the connection; replies to files are data. */
  predicate Allowed(m: Move) {
    match m
    case Accept => true
    case Say(message) => Plain(message)
    case Take(_, replies) => FileReplies(replies)
  }

  ghost function Moved(d: Duo, m: Move): Duo
    requires Connected(d)
  {
    match m
    case Accept =>
      var (n, out) := NodeAccepts(d.near);
      d.(near := n, toFar := d.toFar + out)
    case Say(message) =>
      var (n, out) := NodeSays(d.near, message);
      d.(near := n, toFar := d.toFar + out)
    case Take(luck, replies) =>
      if d.toNear == [] then d else
        var (n, out, stop) := NodeTakes(d.near, d.toNear[0], luck, replies);
        if stop then d.(stopped := true)
        else d.(near := n, toNear := d.toNear[1..], toFar := d.toFar + out)
  }

  ghost function Abs(d: Duo): P.Pair
    requires Connected(d)
  {
    P.Pair(P.End(ViewOf(d.near), RoomOf(d.near), Abstracts(d.toNear), false),
           P.End(ViewOf(d.far), RoomOf(d.far), Abstracts(d.toFar), false))
  }

  lemma AbstractsOfConcat(a: seq<Message>, b: seq<Message>)
    ensures Abstracts(a + b) == Abstracts(a) + Abstracts(b)
  {
  }

  /** The abstract move that mirrors a concrete one. */
  ghost function Mirror(d: Duo, m: Move): P.Move
    requires Connected(d)
  {
    match m
    case Accept => P.Accept
    case Say(message) => P.Send(Abstracts(NodeSays(d.near, message).1))
    case Take(luck, replies) =>
      if d.toNear == [] then P.Receive([]) else P.Receive(Abstracts(NodeTakes(d.near, d.toNear[0], luck, replies).1))
  }

  lemma AcceptMirrors(d: Duo)
    requires Connected(d)
    ensures Connected(Moved(d, Move.Accept)) && Abs(Moved(d, Move.Accept)) == P.Moved(Abs(d), P.Accept)
  {
    AcceptRefines(d.near);
    AbstractsOfConcat(d.toFar, [PairAccept]);
    assert Abstracts([PairAccept]) == [P.Agree];
    hide Up, NodeAccepts, ViewOf, RoomOf, Abstracts;
  }

  lemma SayMirrors(d: Duo, message: Message)
    requires Connected(d) && Plain(message)
    ensures Connected(Moved(d, Say(message)))
    ensures Abs(Moved(d, Say(message))) == P.Moved(Abs(d), Mirror(d, Say(message)))
  {
    SayRefines(d.near, message);
    AbstractsOfConcat(d.toFar, NodeSays(d.near, message).1);
    hide Up, NodeSays, ViewOf, RoomOf, Abstracts;
  }

  lemma TakeRefines(n: Node, m: Message, luck: DiskLuck, replies: seq<Message>)
    requires Up(n) && !m.PairReject? && FileReplies(replies)
    ensures var (after, out, stop) := NodeTakes(n, m, luck, replies);
            && (stop <==> Abstract(m).Data? && !ViewOf(n).authorised)
            && (!stop ==>
                 && Up(after) && RoomOf(after) == RoomOf(n)
                 && ViewOf(after) == P.Takes(ViewOf(n), RoomOf(n), Abstract(m))
                 && P.Permitted(ViewOf(after), Abstracts(out)) && PairReject !in out)
  {
    match n
    case Phone(p) => PhoneTakeRefines(p, m, replies);
    case Desktop(env, s, c) =>
      hide EI.Base, Delivered, Handled;
      if m.PairAccept? {
        DesktopHearsAgreement(env, s, c, luck);
      } else {
        DesktopTakesOther(env, s, c, m, luck);
      }
      if Abstract(m).Data? ==> ViewOf(n).authorised {
        DesktopRepliesArePermitted(env, s, c, m, luck);
        var (after, out, stop) := NodeTakes(n, m, luck, replies);
        DataIsPermitted(ViewOf(after), out);
      }
  }

  lemma TakeMirrors(d: Duo, luck: DiskLuck, replies: seq<Message>)
    requires Connected(d) && d.toNear != [] && FileReplies(replies)
    ensures var m := Take(luck, replies);
            var p := P.Moved(Abs(d), Mirror(d, m));
            && Connected(Moved(d, m))
            && (Moved(d, m).stopped <==> d.stopped || p.near.refused)
            && (!p.near.refused ==> Abs(Moved(d, m)) == p)
  {
    var head := d.toNear[0];
    assert head in d.toNear;
    TakeRefines(d.near, head, luck, replies);
    var (n, out, stop) := NodeTakes(d.near, head, luck, replies);
    AbstractsOfConcat(d.toFar, out);
    assert Abstracts(d.toNear)[0] == Abstract(head) && Abstracts(d.toNear)[1..] == Abstracts(d.toNear[1..]);
    hide Up, NodeTakes, ViewOf, RoomOf, Abstracts, Abstract;
  }

  lemma MoveMirrors(d: Duo, m: Move)
    requires Connected(d) && Allowed(m)
    ensures var p := P.Moved(Abs(d), Mirror(d, m));
            && Connected(Moved(d, m))
            && (Moved(d, m).stopped <==> d.stopped || p.near.refused)
            && (!p.near.refused ==> Abs(Moved(d, m)) == p)
  {
    hide Connected, Abs;
    match m
    case Accept => AcceptMirrors(d); NoRefusalBySending(d, m);
    case Say(message) => SayMirrors(d, message); NoRefusalBySending(d, m);
    case Take(luck, replies) =>
      if d.toNear == [] {
        NothingToTake(d);
      } else {
        TakeMirrors(d, luck, replies);
      }
  }

  lemma NoRefusalBySending(d: Duo, m: Move)
    requires Connected(d) && !m.Take?
    ensures !P.Moved(Abs(d), Mirror(d, m)).near.refused && Moved(d, m).stopped == d.stopped
  {
    hide Up, NodeAccepts, NodeSays, ViewOf, RoomOf, Abstracts;
  }

  lemma NothingToTake(d: Duo)
    requires Connected(d) && d.toNear == []
    ensures P.Moved(Abs(d), P.Receive([])) == Abs(d) && !Abs(d).near.refused
  {
  }

  datatype DuoAction = DuoAction(byFar: bool, move: Move)

  /** Whoever acts, as the near end. */
  function Facing(d: Duo, byFar: bool): Duo {
    if byFar then Swapped(d) else d
  }

  /** One action; nothing happens any more once data has been refused. */
  ghost function Went(d: Duo, a: DuoAction): Duo
    requires Connected(d)
  {
    if d.stopped then d else Facing(Moved(Facing(d, a.byFar), a.move), a.byFar)
  }

  lemma AbsSwaps(d: Duo)
    requires Connected(d)
    ensures Connected(Swapped(d)) && Abs(Swapped(d)) == P.Swap(Abs(d)) && Swapped(Swapped(d)) == d
  {
    hide Up, ViewOf, RoomOf, Abstracts;
  }

  lemma WentKeepsConnected(d: Duo, a: DuoAction)
    requires Connected(d) && Allowed(a.move)
    ensures Connected(Went(d, a))
  {
    hide Connected, Moved, Abs, Mirror, Swapped, Allowed;
    if !d.stopped {
      AbsSwaps(d);
      MoveMirrors(Facing(d, a.byFar), a.move);
      AbsSwaps(Moved(Facing(d, a.byFar), a.move));
    }
  }

  predicate AllAllowed(actions: seq<DuoAction>) {
    forall i :: 0 <= i < |actions| ==> Allowed(actions[i].move)
  }

  /** Where a run of the two nodes ends. */
  ghost function Run(d: Duo, actions: seq<DuoAction>): (e: Duo)
    requires Connected(d) && AllAllowed(actions)
    ensures Connected(e)
    decreases |actions|
  {
    if actions == [] then d else
      var n := |actions| - 1;
      var before := Run(d, actions[..n]);
      WentKeepsConnected(before, actions[n]);
      Went(before, actions[n])
  }

  /**
   * One step of the two nodes is one step of the abstract pair, unless it refuses data, which takes a full
   * store facing one with room.
   */
  lemma StepMirrors(d: Duo, a: DuoAction)
    requires Connected(d) && !d.stopped && Allowed(a.move) && P.Inv(Abs(d))
    ensures var f := Went(d, a);
            && Connected(f) && RoomOf(f.near) == RoomOf(d.near) && RoomOf(f.far) == RoomOf(d.far)
            && (f.stopped ==> RoomOf(d.near) != RoomOf(d.far))
            && (!f.stopped ==> P.Inv(Abs(f)) && Abs(f) == P.Step(Abs(d), P.Action(a.byFar, Mirror(Facing(d, a.byFar), a.move))))
  {
    AbsSwaps(d);
    var e := Facing(d, a.byFar);
    var m := Mirror(e, a.move);
    MoveMirrors(e, a.move);
    P.SwapKeepsInv(Abs(d));
    P.MoveKeepsInv(Abs(e), m);
    RoomsStay(Abs(e), m);
    AbsSwaps(Moved(e, a.move));
    RefusalComparesRooms(Abs(e), m);
    RefusalKeepsNodes(e, a.move);
    AbsRooms(d);
    AbsRooms(e);
    AbsRooms(Moved(e, a.move));
    hide Connected, Moved, Abs, Mirror, ViewOf, RoomOf, Up, P.Inv, P.Moved;
  }

  lemma AbsRooms(d: Duo)
    requires Connected(d)
    ensures Abs(d).near.room == RoomOf(d.near) && Abs(d).far.room == RoomOf(d.far) && !Abs(d).near.refused
  {
  }

  lemma RefusalKeepsNodes(d: Duo, m: Move)
    requires Connected(d) && !d.stopped
    ensures Moved(d, m).stopped ==> Moved(d, m).near == d.near && Moved(d, m).far == d.far
  {
    hide NodeTakes;
  }

  lemma RefusalComparesRooms(p: P.Pair, m: P.Move)
    requires P.Inv(p)
    ensures P.Moved(p, m).near.refused ==> P.Moved(p, m).far.room && !P.Moved(p, m).near.room
  {
    P.MoveKeepsInv(p, m);
  }

  lemma RoomsStay(p: P.Pair, m: P.Move)
    ensures P.Moved(p, m).near.room == p.near.room && P.Moved(p, m).far.room == p.far.room
  {
  }

  /**
   * Desktop or phone at either end, over every run: data is refused only where one store is full and the
   * other is not, and until then the pair keeps the pairing invariant.
   */
  lemma {:induction false} PairingSucceeds(d: Duo, actions: seq<DuoAction>)
    requires Connected(d) && !d.stopped && P.Inv(Abs(d)) && AllAllowed(actions)
    ensures var e := Run(d, actions);
            && RoomOf(e.near) == RoomOf(d.near) && RoomOf(e.far) == RoomOf(d.far)
            && (e.stopped ==> RoomOf(d.near) != RoomOf(d.far))
            && (!e.stopped ==> P.Inv(Abs(e)))
    decreases |actions|
  {
    hide Connected, Went, P.Inv, RoomOf, Abs, Allowed, Mirror;
    if actions != [] {
      var n := |actions| - 1;
      PairingSucceeds(d, actions[..n]);
      var before := Run(d, actions[..n]);
      StoppedStays(before, actions[n]);
      if !before.stopped {
        StepMirrors(before, actions[n]);
      }
    }
  }

  lemma StoppedStays(d: Duo, a: DuoAction)
    requires Connected(d)
    ensures d.stopped ==> Went(d, a) == d
  {
  }

  // ---- what the users did, and what it led to ------------------------------------------------------

  /** Both ends fresh on this connection, nothing under way. */
  ghost predicate Unpaired(d: Duo) {
    Connected(d) && ViewOf(d.near) == P.Unpaired == ViewOf(d.far) && d.toNear == [] == d.toFar && !d.stopped
  }

  lemma UnpairedIsInv(d: Duo)
    requires Unpaired(d)
    ensures P.Inv(Abs(d))
  {
    assert Abstracts([]) == [];
  }

  /** The user of one end has accepted somewhere in the run. */
  predicate HasAccepted(actions: seq<DuoAction>, far: bool) {
    exists i :: 0 <= i < |actions| && actions[i] == DuoAction(far, Move.Accept)
  }

  /** The near end processes the peer's PairAccept. */
  predicate Hears(d: Duo, a: DuoAction) {
    !a.byFar && a.move.Take? && d.toNear != [] && d.toNear[0] == PairAccept
  }

  ghost predicate HasHeard(d: Duo, actions: seq<DuoAction>)
    requires Connected(d) && AllAllowed(actions)
  {
    exists i :: 0 <= i < |actions| && Hears(Run(d, actions[..i]), actions[i])
  }

  lemma StepFlags(d: Duo, a: DuoAction)
    requires Connected(d) && !d.stopped && Allowed(a.move) && P.Inv(Abs(d)) && !Went(d, a).stopped
    ensures var f := Went(d, a);
            && Connected(f)
            && (ViewOf(f.near).localOk <==> ViewOf(d.near).localOk || a == DuoAction(false, Move.Accept))
            && (ViewOf(f.far).localOk <==> ViewOf(d.far).localOk || a == DuoAction(true, Move.Accept))
            && (ViewOf(f.near).remoteOk <==> ViewOf(d.near).remoteOk || Hears(d, a))
  {
    StepMirrors(d, a);
    var b := P.Action(a.byFar, Mirror(Facing(d, a.byFar), a.move));
    P.StepFlags(Abs(d), b);
    FarFlag(Abs(d), b);
    AbsViews(d);
    AbsViews(Went(d, a));
    hide Connected, Went, P.Inv, RoomOf, Abs, Allowed, ViewOf, P.Step;
  }

  lemma AbsViews(d: Duo)
    requires Connected(d)
    ensures Abs(d).near.view == ViewOf(d.near) && Abs(d).far.view == ViewOf(d.far)
    ensures Abs(d).near.inbox == Abstracts(d.toNear)
  {
  }

  lemma FarFlag(p: P.Pair, a: P.Action)
    ensures P.Step(p, a).far.view.localOk <==> p.far.view.localOk || a == P.Action(true, P.Accept)
  {
  }

  lemma HistoryGrows(d: Duo, actions: seq<DuoAction>)
    requires Connected(d) && AllAllowed(actions) && actions != []
    ensures var n := |actions| - 1;
            && (HasHeard(d, actions) <==> HasHeard(d, actions[..n]) || Hears(Run(d, actions[..n]), actions[n]))
            && forall far :: HasAccepted(actions, far) <==> HasAccepted(actions[..n], far) || actions[n] == DuoAction(far, Move.Accept)
  {
    hide Run, Hears, Connected, Allowed;
    var n := |actions| - 1;
    assert forall i :: 0 <= i < n ==> actions[..n][i] == actions[i] && actions[..n][..i] == actions[..i];
    if HasHeard(d, actions[..n]) {
      var i :| 0 <= i < n && Hears(Run(d, actions[..n][..i]), actions[..n][i]);
      assert Hears(Run(d, actions[..i]), actions[i]);
    }
    forall far | HasAccepted(actions[..n], far)
      ensures HasAccepted(actions, far)
    {
      var i :| 0 <= i < n && actions[..n][i] == DuoAction(far, Move.Accept);
      assert actions[i] == DuoAction(far, Move.Accept);
    }
  }

  lemma {:induction false} FlagsAreHistory(d: Duo, actions: seq<DuoAction>)
    requires Unpaired(d) && AllAllowed(actions) && !Run(d, actions).stopped
    ensures var e := Run(d, actions);
            && (ViewOf(e.near).localOk <==> HasAccepted(actions, false))
            && (ViewOf(e.far).localOk <==> HasAccepted(actions, true))
            && (ViewOf(e.near).remoteOk <==> HasHeard(d, actions))
    decreases |actions|
  {
    if actions != [] {
      var n := |actions| - 1;
      var before := Run(d, actions[..n]);
      UnpairedIsInv(d);
      hide Connected, Went, P.Inv, RoomOf, Abs, Allowed, ViewOf, HasHeard, HasAccepted, Unpaired;
      StoppedStays(before, actions[n]);
      FlagsAreHistory(d, actions[..n]);
      PairingSucceeds(d, actions[..n]);
      HistoryGrows(d, actions);
      StepFlags(before, actions[n]);
    }
  }

  /**
   * Desktop or phone at either end, from two unpaired nodes: unless data has been refused, an end is
   * authorised exactly when its store has room, its user accepted and it processed the peer's PairAccept;
   * with equal room nothing is refused; and once both users have accepted and nothing is under way, both
   * ends with room are authorised.
   */
  lemma PairingFromScratch(d: Duo, actions: seq<DuoAction>)
    requires Unpaired(d) && AllAllowed(actions)
    ensures var e := Run(d, actions);
            && (RoomOf(d.near) == RoomOf(d.far) ==> !e.stopped)
            && (!e.stopped ==>
                 && (ViewOf(e.near).authorised <==> RoomOf(d.near) && HasAccepted(actions, false) && HasHeard(d, actions))
                 && (HasHeard(d, actions) ==> HasAccepted(actions, true))
                 && (HasAccepted(actions, false) && HasAccepted(actions, true) && e.toNear == [] == e.toFar ==>
                      ViewOf(e.near).authorised == RoomOf(d.near) && ViewOf(e.far).authorised == RoomOf(d.far)))
  {
    UnpairedIsInv(d);
    PairingSucceeds(d, actions);
    var e := Run(d, actions);
    if !e.stopped {
      FlagsAreHistory(d, actions);
      AbsViews(e);
      AbsRooms(e);
      EmptyIsEmpty();
      hide Connected, Run, RoomOf, Allowed, ViewOf, HasHeard, HasAccepted, Unpaired, Abstracts, P.Covered, Up;
    }
  }

  lemma EmptyIsEmpty()
    ensures Abstracts([]) == []
  {
  }

  // ---- a full store ----------------------------------------------------------------------------------

  lemma AgreementIsSilent(n: Node, luck: DiskLuck)
    requires Up(n)
    ensures NodeTakes(n, PairAccept, luck, []).1 == [] && !NodeTakes(n, PairAccept, luck, []).2
  {
    match n
    case Desktop(env, s, c) =>
      EI.LiveIsConnected(env, s, c);
      EI.PairAcceptHandled(env, s, Peer(n), s.live[c], luck);
      FinalizingSendsNothing(s, Peer(n));
      hide Handled, EI.Base, PairingFinalized;
      assert s.sent[|s.sent|..] == [];
    case Phone(p) =>
      assert p.sent[|p.sent|..] == [];
  }

  lemma AuthorisedSays(n: Node, m: Message)
    requires Up(n) && ViewOf(n).authorised
    ensures NodeSays(n, m).1 == [m]
  {
    match n
    case Desktop(env, s, c) =>
      var d := Peer(n);
      assert (s.sent + [Sent(d, m)])[|s.sent|..] == [Sent(d, m)];
      assert To(d, [Sent(d, m)]) == [m];
    case Phone(p) =>
      assert (p.sent + [m])[|p.sent|..] == [m];
  }

  const Lucky := DiskLuck(true, true, true)

  lemma AcceptFacts(d: Duo)
    requires Connected(d)
    ensures var e := Moved(d, Move.Accept);
            && Connected(e) && e == d.(near := e.near, toFar := d.toFar + [PairAccept])
            && ViewOf(e.near) == P.UserAccepts(ViewOf(d.near), RoomOf(d.near)) && RoomOf(e.near) == RoomOf(d.near)
  {
    AcceptRefines(d.near);
    hide Up, NodeAccepts, ViewOf, RoomOf;
  }

  lemma HearFacts(d: Duo)
    requires Connected(d) && d.toNear != [] && d.toNear[0] == PairAccept
    ensures var e := Moved(d, Take(Lucky, []));
            && Connected(e) && e == d.(near := e.near, toNear := d.toNear[1..])
            && ViewOf(e.near) == P.PeerAgrees(ViewOf(d.near), RoomOf(d.near)) && RoomOf(e.near) == RoomOf(d.near)
  {
    TakeRefines(d.near, PairAccept, Lucky, []);
    AgreementIsSilent(d.near, Lucky);
    hide Up, NodeTakes, ViewOf, RoomOf;
    assert d.toFar + [] == d.toFar;
  }

  lemma SayFacts(d: Duo, m: Message)
    requires Connected(d) && Plain(m) && ViewOf(d.near).authorised
    ensures var e := Moved(d, Say(m));
            Connected(e) && e == d.(near := e.near, toFar := d.toFar + [m])
  {
    SayRefines(d.near, m);
    AuthorisedSays(d.near, m);
    hide Up, NodeSays, ViewOf, RoomOf;
  }

  lemma RefuseFacts(d: Duo)
    requires Connected(d) && d.toNear != [] && Abstract(d.toNear[0]).Data? && !ViewOf(d.near).authorised
    ensures Moved(d, Take(Lucky, [])) == d.(stopped := true)
  {
    assert d.toNear[0] in d.toNear;
    TakeRefines(d.near, d.toNear[0], Lucky, []);
    hide Up, NodeTakes, ViewOf, RoomOf;
  }

  /** Both users accept; the near end hears it, sends a text, and the far end takes both messages. */
  function RefusingRun(): seq<DuoAction> {
    [DuoAction(false, Move.Accept), DuoAction(true, Move.Accept), DuoAction(false, Take(Lucky, [])),
     DuoAction(false, Say(Text(0))), DuoAction(true, Take(Lucky, [])), DuoAction(true, Take(Lucky, []))]
  }

  lemma RunOneMore(d: Duo, actions: seq<DuoAction>, a: DuoAction)
    requires Connected(d) && AllAllowed(actions) && Allowed(a.move)
    ensures AllAllowed(actions + [a]) && Run(d, actions + [a]) == Went(Run(d, actions), a)
  {
    hide Connected, Went, Allowed;
    assert (actions + [a])[..|actions|] == actions;
  }

  /** The same actions with the two ends exchanged. */
  function Exchanged(actions: seq<DuoAction>): (r: seq<DuoAction>)
    ensures |r| == |actions|
  {
    seq(|actions|, i requires 0 <= i < |actions| => DuoAction(!actions[i].byFar, actions[i].move))
  }

  lemma {:induction false} RunSwaps(d: Duo, actions: seq<DuoAction>)
    requires Connected(d) && AllAllowed(actions)
    ensures Connected(Swapped(d)) && AllAllowed(Exchanged(actions))
    ensures Run(Swapped(d), Exchanged(actions)) == Swapped(Run(d, actions))
    decreases |actions|
  {
    AbsSwaps(d);
    hide Connected, Moved, Allowed, Abs;
    if actions != [] {
      var n := |actions| - 1;
      RunSwaps(d, actions[..n]);
      assert Exchanged(actions)[..n] == Exchanged(actions[..n]);
    }
  }

  /** Both users have accepted, and neither end has heard of it. */
  ghost predicate BothAccepted(d: Duo) {
    && Connected(d) && !d.stopped && d.toNear == [PairAccept] == d.toFar
    && ViewOf(d.near) == P.View(true, false, false) == ViewOf(d.far)
    && RoomOf(d.near) && !RoomOf(d.far)
  }

  lemma UsersAccept(d: Duo)
    requires Unpaired(d) && RoomOf(d.near) && !RoomOf(d.far)
    ensures Connected(Went(d, RefusingRun()[0])) && BothAccepted(Went(Went(d, RefusingRun()[0]), RefusingRun()[1]))
  {
    hide Up, ViewOf, RoomOf, NodeAccepts;
    AcceptFacts(d);
    var d1 := Moved(d, Move.Accept);
    AbsSwaps(d1);
    AcceptFacts(Swapped(d1));
    AbsSwaps(Moved(Swapped(d1), Move.Accept));
    assert [] + [PairAccept] == [PairAccept];
  }

  /** The far end has a text on its way behind the agreement. */
  ghost predicate TextFollows(d: Duo) {
    && Connected(d) && !d.stopped && d.toFar == [PairAccept, Text(0)]
    && ViewOf(d.far) == P.View(true, false, false) && !RoomOf(d.far)
  }

  lemma NearTalks(d: Duo)
    requires BothAccepted(d)
    ensures Connected(Went(d, RefusingRun()[2])) && TextFollows(Went(Went(d, RefusingRun()[2]), RefusingRun()[3]))
  {
    hide Up, ViewOf, RoomOf, NodeTakes, NodeSays;
    HearFacts(d);
    SayFacts(Moved(d, Take(Lucky, [])), Text(0));
    assert [PairAccept] + [Text(0)] == [PairAccept, Text(0)];
  }

  lemma FarRefuses(d: Duo)
    requires TextFollows(d)
    ensures Connected(Went(d, RefusingRun()[4])) && Went(Went(d, RefusingRun()[4]), RefusingRun()[5]).stopped
  {
    hide Up, ViewOf, RoomOf, NodeTakes;
    AbsSwaps(d);
    HearFacts(Swapped(d));
    var e := Moved(Swapped(d), Take(Lucky, []));
    AbsSwaps(e);
    assert [PairAccept, Text(0)][1..] == [Text(0)];
    RefuseFacts(e);
  }

  lemma FullStoreStops(d: Duo)
    requires Unpaired(d) && RoomOf(d.near) && !RoomOf(d.far)
    ensures AllAllowed(RefusingRun()) && Run(d, RefusingRun()).stopped
  {
    var r := RefusingRun();
    assert AllAllowed(r);
    hide Run, Connected, Went, RefusingRun, RoomOf, Unpaired, BothAccepted;
    UsersAccept(d);
    var d1 := Went(d, r[0]);
    var d2 := Went(d1, r[1]);
    assert Connected(d2) by { BothAcceptedIsConnected(d2); }
    NearTalks(d2);
    var d3 := Went(d2, r[2]);
    var d4 := Went(d3, r[3]);
    FarRefuses(d4);
    SixActions(d, r, d1, d2, d3, d4, Went(d4, r[4]));
  }

  lemma BothAcceptedIsConnected(d: Duo)
    requires BothAccepted(d)
    ensures Connected(d)
  {
  }

  lemma SixActions(d: Duo, r: seq<DuoAction>, d1: Duo, d2: Duo, d3: Duo, d4: Duo, d5: Duo)
    requires |r| == 6 && AllAllowed(r) && Connected(d) && d1 == Went(d, r[0])
    requires Connected(d1) && d2 == Went(d1, r[1]) && Connected(d2) && d3 == Went(d2, r[2])
    requires Connected(d3) && d4 == Went(d3, r[3]) && Connected(d4) && d5 == Went(d4, r[4]) && Connected(d5)
    ensures Run(d, r) == Went(d5, r[5])
  {
    hide Went, Connected, Allowed;
    RunOneMore(d, [], r[0]);
    RunOneMore(d, [r[0]], r[1]);
    RunOneMore(d, [r[0], r[1]], r[2]);
    RunOneMore(d, [r[0], r[1], r[2]], r[3]);
    RunOneMore(d, [r[0], r[1], r[2], r[3]], r[4]);
    RunOneMore(d, [r[0], r[1], r[2], r[3], r[4]], r[5]);
    assert [] + [r[0]] == [r[0]] && [r[0]] + [r[1]] == [r[0], r[1]] && [r[0], r[1]] + [r[2]] == [r[0], r[1], r[2]];
    assert [r[0], r[1], r[2]] + [r[3]] == [r[0], r[1], r[2], r[3]];
    assert [r[0], r[1], r[2], r[3]] + [r[4]] == [r[0], r[1], r[2], r[3], r[4]];
    assert [r[0], r[1], r[2], r[3], r[4]] + [r[5]] == r;
  }

  /** From two unpaired nodes some run refuses data exactly when one store is full and the other is not. */
  lemma RefusalNeedsFullStore(d: Duo)
    requires Unpaired(d)
    ensures (exists actions :: AllAllowed(actions) && Run(d, actions).stopped) <==> RoomOf(d.near) != RoomOf(d.far)
  {
    UnpairedIsInv(d);
    if RoomOf(d.near) == RoomOf(d.far) {
      forall actions | AllAllowed(actions)
        ensures !Run(d, actions).stopped
      {
        PairingSucceeds(d, actions);
      }
    } else if RoomOf(d.near) {
      FullStoreStops(d);
    } else {
      FullStoreStops(Swapped(d));
      RunSwaps(Swapped(d), RefusingRun());
      assert Run(d, Exchanged(RefusingRun())).stopped;
    }
  }

  lemma StoreOfSize(n: nat) returns (trust: map<Key, Trusted>)
    ensures |trust| == n && n !in trust
  {
    trust := map k: Key | k in Below(n) :: Trusted(false, false);
    assert trust.Keys == Below(n);
  }

  /** Two such nodes: a phone with a full store, and one with an empty store. */
  lemma FullStoresExist() returns (d: Duo)
    ensures Unpaired(d) && RoomOf(d.near) && !RoomOf(d.far)
  {
    var full := StoreOfSize(MAX_TRUSTED_DEVICES);
    d := Duo(Phone(PhoneState(map[], 0, false, false, false, false, [])),
             Phone(PhoneState(full, MAX_TRUSTED_DEVICES, false, false, false, false, [])), [], [], false);
  }
}
