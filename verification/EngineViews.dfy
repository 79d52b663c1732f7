/**
 * The engine seen from each thing it keeps: one connection, one stored key, one incoming transfer, one
 * outgoing send, the received texts and the published files each follow a small machine of their own.
 */
module EngineViews {
  import opened Prelude
  import opened Transfers
  import opened Engines
  import opened EngineInvariant
  import opened EngineReplies
  import Naming

  function Find<K, V>(m: map<K, V>, k: K): Option<V> {
    if k in m then Some(m[k]) else None
  }

  // ---- the machines ------------------------------------------------------------------

  /** Message `m` arrives from device `d`. */
  predicate Arrives(env: Env, s: State, a: Action, d: Device) {
    a.Deliver? && Heard(env, s, a.conn, a.message) && env.deviceOf(s.live[a.conn]) == d
  }

  /** The receive loop of device `d` ends: it drops, says what it may not say yet, or refuses to pair. */
  predicate Leaves(env: Env, s: State, a: Action, d: Device) {
    || (a.Drop? && a.conn in s.live && env.deviceOf(s.live[a.conn]) == d)
    || (a.Deliver? && a.conn in s.live && env.deviceOf(s.live[a.conn]) == d
        && (a.message.PairReject? || !Heard(env, s, a.conn, a.message)))
  }

  /** The user's part and the peer's part of the agreement with `d`, counting this action. */
  predicate LocallyAgreed(s: State, a: Action, d: Device)
    requires d in s.conns
  {
    s.conns[d].localOk || a == AnswerPairing(d, true)
  }

  predicate RemotelyAgreed(env: Env, s: State, a: Action, d: Device)
    requires d in s.conns
  {
    s.conns[d].remoteOk || (Arrives(env, s, a, d) && a.message.PairAccept?)
  }

  /** The action completes the agreement with `d`, and the store has room for its key. */
  predicate Joins(env: Env, s: State, a: Action, d: Device) {
    && d in s.conns && !s.conns[d].authorised
    && (a == AnswerPairing(d, true) || (Arrives(env, s, a, d) && a.message.PairAccept?))
    && LocallyAgreed(s, a, d) && RemotelyAgreed(env, s, a, d)
    && |s.trust| < 256
  }

  /** The user shuts the connection of `d`. */
  predicate Shuts(a: Action, d: Device) {
    a == Disconnect(d) || a == Forget(d) || a == SetBlocked(d, true) || a == AnswerPairing(d, false)
  }

  function NextConn(env: Env, s: State, a: Action, d: Device): Option<Conn> {
    if d !in s.conns then
      if a.Open? && env.deviceOf(a.key) == d && Admitted(env, s, a.key, a.expected)
      then Some(Conn(s.next, a.key, a.key in s.trust, false, false, false)) else None
    else if Leaves(env, s, a, d) then None
    else Some(s.conns[d].(
      localOk := LocallyAgreed(s, a, d),
      remoteOk := RemotelyAgreed(env, s, a, d),
      authorised := s.conns[d].authorised || Joins(env, s, a, d),
      closed := s.conns[d].closed || Shuts(a, d)))
  }

  /** A stored key changes by the user's hand only; a new one starts unblocked and accepts nothing by itself. */
  function NextTrust(env: Env, s: State, a: Action, k: Key): Option<Trusted> {
    match Find(s.trust, k)
    case None =>
      if exists d :: d in s.conns && s.conns[d].key == k && Joins(env, s, a, d) then Some(Trusted(false, false)) else None
    case Some(t) =>
      if a.Forget? && KeyFor(env, s, a.device) == Some(k) then None
      else if a.SetBlocked? && KeyFor(env, s, a.device) == Some(k) then Some(t.(blocked := a.on))
      else if a.SetAutoAccept? && KeyFor(env, s, a.device) == Some(k) then Some(t.(autoAccept := a.on))
      else Some(t)
  }

  /** What ends incoming transfer `t`. */
  predicate Ends(env: Env, s: State, a: Action, t: Transfer) {
    || (a.AnswerOffer? && a.transfer == t.id && !(a.accept && a.opens))
    || (a.CancelTransfer? && a.transfer == t.id && t.id !in s.outgoing)
    || Leaves(env, s, a, t.from)
    || (a.Deliver? && Heard(env, s, a.conn, a.message)
        && match a.message
           case FileCancel(id) => id == t.id
           case FileError(id) => id == t.id
           case FileDone(id) => id == t.id && t.received != t.size
           case FileChunk(id, offset, data) =>
             id == t.id && OwnChunk(s, a.conn, a.message)
             && (Unwritable(s, t, offset, data, a.luck) || Completes(s, t, offset, data, a.luck))
           case _ => false)
  }

  /** An offer under `id` that is taken in, and not refused by the disk at once. */
  predicate Begins(env: Env, s: State, a: Action, id: TransferId) {
    && a.Deliver? && Heard(env, s, a.conn, a.message) && a.message.FileOffer? && a.message.id == id
    && TakenIn(s, id, a.message.size)
    && (AcceptsAlone(s, s.live[a.conn]) ==> a.luck.opens)
  }

  function NextTransfer(env: Env, s: State, a: Action, id: TransferId): Option<Transfer> {
    match Find(s.inbox.incoming, id)
    case None =>
      if !Begins(env, s, a, id) then None else
        var key, m := s.live[a.conn], a.message;
        Some(Transfer(id, env.deviceOf(key), key, Naming.Sanitized(m.name), m.size, Lower(m.sha), 0, AcceptsAlone(s, key), []))
    case Some(t) =>
      if Ends(env, s, a, t) then None
      else if a == AnswerOffer(id, true, true) then Some(t.(accepted := true))
      else if a.Deliver? && Heard(env, s, a.conn, a.message) && OwnChunk(s, a.conn, a.message) && a.message.id == id then
        Some(t.(received := t.received + |a.message.data|, hashed := t.hashed + a.message.data))
      else Some(t)
  }

  /** What a peer's answer queues for the send it names. */
  function SignalFor(env: Env, s: State, a: Action, id: TransferId): Option<Signal> {
    if !(a.Deliver? && Heard(env, s, a.conn, a.message)) then None
    else match a.message
      case FileAccept(i) => if i == id then Some(Accept) else None
      case FileReject(i) => if i == id then Some(Reject) else None
      case FileCancel(i) => if i == id then Some(Cancel) else None
      case FileError(i) => if i == id then Some(Cancel) else None
      case _ => None
  }

  function Queued(signals: seq<Signal>, signal: Option<Signal>): seq<Signal> {
    if signal.Some? then signals + [signal.value] else signals
  }

  function NextSend(env: Env, s: State, a: Action, id: TransferId): Option<Outgoing> {
    if a.StartSend? && a.transfer == id then Some(Outgoing(a.device, [], false))
    else if a == EndSend(id) || id !in s.outgoing then None
    else
      var o := s.outgoing[id];
      Some(Outgoing(o.to, Queued(o.signals, SignalFor(env, s, a, id)),
                    o.cancelled || a == CancelTransfer(id) || Leaves(env, s, a, o.to)))
  }

  /** The text the action brings. */
  function TextOf(env: Env, s: State, a: Action): seq<(Device, TransferId)> {
    if a.Deliver? && Heard(env, s, a.conn, a.message) && a.message.Text?
    then [(env.deviceOf(s.live[a.conn]), a.message.id)] else []
  }

  /** The file the action completes: the last chunk fits, the digest is the offered one and the disk works. */
  function FileOf(env: Env, s: State, a: Action): seq<Published> {
    if && a.Deliver? && Heard(env, s, a.conn, a.message) && OwnChunk(s, a.conn, a.message)
       && Completes(s, s.inbox.incoming[a.message.id], a.message.offset, a.message.data, a.luck)
       && a.luck.publishes && a.message.id in s.inbox.folders.parts
       && env.sha256(s.inbox.incoming[a.message.id].hashed + a.message.data) == s.inbox.incoming[a.message.id].sha
    then
      var t := s.inbox.incoming[a.message.id];
      [Published(t.(received := t.size, hashed := t.hashed + a.message.data),
                 Naming.UniqueName(s.inbox.folders.downloads.Keys, t.name, env.pid),
                 s.inbox.folders.parts[a.message.id] + a.message.data)]
    else []
  }

  // ---- incoming transfers and published files ----------------------------------------------

  lemma AbortingViews(x: Inbox, gone: set<TransferId>)
    ensures var y := AbortedAll(x, gone);
            y.incoming == x.incoming - gone && y.published == x.published && y.folders.downloads == x.folders.downloads
  {
  }

  lemma AbortViews(s: State, id: TransferId)
    ensures IncomingAborted(s, id).inbox.incoming == s.inbox.incoming - {id}
    ensures IncomingAborted(s, id).inbox.published == s.inbox.published
    ensures IncomingAborted(s, id) == s.(inbox := IncomingAborted(s, id).inbox)
  {
    AbortingViews(s.inbox, {id});
    hide AbortedAll;
    if id !in s.inbox.incoming {
      assert s.inbox.incoming - {id} == s.inbox.incoming;
    }
  }

  /** Only transfers and messages differ. */
  predicate OnlyInbox(s: State, t: State) {
    t == s.(inbox := t.inbox, sent := t.sent)
  }

  lemma AnswerViews(s: State, id: TransferId, accept: bool, works: bool)
    requires id in s.inbox.incoming ==> s.inbox.incoming[id].id == id
    ensures var after := OfferAnswered(s, id, accept, works);
            && OnlyInbox(s, after) && after.inbox.published == s.inbox.published
            && after.inbox.incoming ==
               if accept && works && id in s.inbox.incoming
               then s.inbox.incoming[id := s.inbox.incoming[id].(accepted := true)]
               else s.inbox.incoming - {id}
  {
    hide IncomingAborted, SendRaw;
    if id in s.inbox.incoming {
      var t := s.inbox.incoming[id];
      var (u, f, ok) := Accepted(t, s.inbox.folders, works);
      var begun := s.(inbox := WithTransfer(s.inbox, u, f));
      AbortViews(s, id);
      AbortViews(begun, id);
      RawViews(IncomingAborted(s, id), t.from, FileReject(id));
      RawViews(IncomingAborted(begun, id), t.from, FileReject(id));
      RawViews(begun, t.from, FileAccept(id));
      assert s.inbox.incoming[id := u] - {id} == s.inbox.incoming - {id};
    } else {
      assert s.inbox.incoming - {id} == s.inbox.incoming;
    }
  }

  lemma OfferViews(env: Env, s: State, d: Device, key: Key, m: Message, luck: DiskLuck)
    requires m.FileOffer?
    ensures var after := OfferReceived(s, d, key, m, luck);
            var u := Transfer(m.id, d, key, Naming.Sanitized(m.name), m.size, Lower(m.sha), 0, AcceptsAlone(s, key), []);
            && OnlyInbox(s, after) && after.inbox.published == s.inbox.published
            && after.inbox.incoming ==
               if TakenIn(s, m.id, m.size) && (AcceptsAlone(s, key) ==> luck.opens)
               then s.inbox.incoming[m.id := u] else s.inbox.incoming
  {
    hide OfferAnswered, SendRaw, Naming.Sanitized, Lower;
    RawViews(s, d, FileReject(m.id));
    if TakenIn(s, m.id, m.size) {
      var t := Offered(m.id, d, key, m.name, m.size, m.sha);
      var taken := s.(inbox := OfferTaken(s.inbox, t));
      AnswerViews(taken, m.id, true, luck.opens);
      assert s.inbox.incoming[m.id := t] - {m.id} == s.inbox.incoming;
      assert s.inbox.incoming[m.id := t][m.id := t.(accepted := true)] == s.inbox.incoming[m.id := t.(accepted := true)];
    }
  }

  lemma CompletedViews(env: Env, s: State, d: Device, t: Transfer, works: bool)
    requires t.id in s.inbox.folders.parts && t.received == t.size
    ensures var after := Completed(env, s, d, t, works);
            && OnlyInbox(s, after) && after.inbox.incoming == s.inbox.incoming - {t.id}
            && after.inbox.published == s.inbox.published +
                 if works && env.sha256(t.hashed) == t.sha
                 then [Published(t, Naming.UniqueName(s.inbox.folders.downloads.Keys, t.name, env.pid), s.inbox.folders.parts[t.id])]
                 else []
  {
    hide Naming.UniqueName;
  }

  lemma WrittenViews(t: Transfer, x: Inbox, offset: nat, data: Bytes, luck: DiskLuck)
    requires Held(t, x.folders) && t.id in x.incoming
    ensures var (u, f, r) := ChunkWritten(t, x.folders, offset, data, luck.writes);
            && f.downloads == x.folders.downloads && u.id == t.id
            && x.incoming[u.id := u] - {t.id} == x.incoming - {t.id}
            && (r.Ok? ==> t.id in x.folders.parts && t.id in f.parts && f.parts[t.id] == x.folders.parts[t.id] + data)
  {
  }

  lemma ChunkViews(env: Env, s: State, c: ConnId, m: Message, luck: DiskLuck)
    requires Structured(env, s) && m.FileChunk? && c in s.live && Heard(env, s, c, m)
    ensures var after := ChunkReceived(env, s, env.deviceOf(s.live[c]), s.live[c], m, luck);
            && OnlyInbox(s, after)
            && after.inbox.published == s.inbox.published + FileOf(env, s, Deliver(c, m, luck))
            && after.inbox.incoming ==
               if !OwnChunk(s, c, m) then s.inbox.incoming else
                 var t := s.inbox.incoming[m.id];
                 if Unwritable(s, t, m.offset, m.data, luck) || Completes(s, t, m.offset, m.data, luck) then s.inbox.incoming - {m.id}
                 else s.inbox.incoming[m.id := t.(received := t.received + |m.data|, hashed := t.hashed + m.data)]
  {
    hide LinksOk, TrustOk, Structure, Placed, Counted, Held, ChunkWritten, Completed, IncomingAborted, SendRaw, Heard, Naming.UniqueName;
    var d, key := env.deviceOf(s.live[c]), s.live[c];
    if OwnChunk(s, c, m) {
      var t := s.inbox.incoming[m.id];
      StructureParts(env.sha256, s.inbox, s.conns);
      PlacedParts(s.inbox, s.conns, m.id);
      OwnerIsPeer(env, s, t);
      ChunkVerdict(t, s.inbox, m.offset, m.data, luck);
      WrittenViews(t, s.inbox, m.offset, m.data, luck);
      var (u, f, r) := ChunkWritten(t, s.inbox.folders, m.offset, m.data, luck.writes);
      var written := s.(inbox := WithTransfer(s.inbox, u, f));
      RawViews(written, d, FileError(m.id));
      AbortViews(SendRaw(written, d, FileError(m.id)), m.id);
      if r.Ok? && u.received == u.size {
        CompletedViews(env, written, d, u, luck.publishes);
      }
    }
  }

  lemma DoneViews(s: State, id: TransferId)
    ensures var after := DoneReceived(s, id);
            && OnlyInbox(s, after) && after.inbox.published == s.inbox.published
            && after.inbox.incoming ==
               if id in s.inbox.incoming && s.inbox.incoming[id].received != s.inbox.incoming[id].size
               then s.inbox.incoming - {id} else s.inbox.incoming
  {
    hide IncomingAborted;
    AbortViews(s, id);
  }

  // ---- one message ----------------------------------------------------------------------------

  lemma HandledStays(env: Env, s: State, c: ConnId, m: Message, luck: DiskLuck)
    requires Base(env, s) && c in s.live
    ensures Handled(env, s, env.deviceOf(s.live[c]), s.live[c], m, luck).1 <==> Heard(env, s, c, m) && !m.PairReject?
    ensures forall d :: Leaves(env, s, Deliver(c, m, luck), d) <==>
              d == env.deviceOf(s.live[c]) && (m.PairReject? || !Heard(env, s, c, m))
  {
    LiveIsConnected(env, s, c);
    hide Base;
    VerdictOf(env, s, env.deviceOf(s.live[c]), s.live[c], m, luck);
    hide Handled;
  }

  lemma VerdictOf(env: Env, s: State, d: Device, key: Key, m: Message, luck: DiskLuck)
    requires d in s.conns
    ensures Handled(env, s, d, key, m, luck).1 <==> (Preliminary(m) || Authorised(s, d)) && !m.PairReject?
  {
    hide OfferReceived, ChunkReceived, DoneReceived, IncomingAborted, PeerAccepted, SendRaw, Signalled;
  }

  lemma OfferTransfer(env: Env, s: State, c: ConnId, m: Message, luck: DiskLuck, id: TransferId)
    requires m.FileOffer? && c in s.live && Heard(env, s, c, m)
    requires forall d :: !Leaves(env, s, Deliver(c, m, luck), d)
    ensures Find(OfferReceived(s, env.deviceOf(s.live[c]), s.live[c], m, luck).inbox.incoming, id)
         == NextTransfer(env, s, Deliver(c, m, luck), id)
  {
    OfferViews(env, s, env.deviceOf(s.live[c]), s.live[c], m, luck);
    hide OfferReceived, Leaves, Heard, Unwritable, Completes, Naming.Sanitized, Lower, AcceptsAlone;
  }

  lemma ChunkedTransfer(env: Env, s: State, a: Action, after: State, id: TransferId)
    requires a.Deliver? && a.message.FileChunk? && Heard(env, s, a.conn, a.message)
    requires id in s.inbox.incoming ==> s.inbox.incoming[id].id == id
    requires forall d :: !Leaves(env, s, a, d)
    requires var m := a.message;
             after.inbox.incoming ==
               if !OwnChunk(s, a.conn, m) then s.inbox.incoming else
                 var t := s.inbox.incoming[m.id];
                 if Unwritable(s, t, m.offset, m.data, a.luck) || Completes(s, t, m.offset, m.data, a.luck) then s.inbox.incoming - {m.id}
                 else s.inbox.incoming[m.id := t.(received := t.received + |m.data|, hashed := t.hashed + m.data)]
    ensures Find(after.inbox.incoming, id) == NextTransfer(env, s, a, id)
  {
    hide Leaves, Heard, Unwritable, Completes;
  }

  lemma ChunkTransfer(env: Env, s: State, c: ConnId, m: Message, luck: DiskLuck, id: TransferId)
    requires Structured(env, s) && m.FileChunk? && c in s.live && Heard(env, s, c, m)
    requires id in s.inbox.incoming ==> s.inbox.incoming[id].id == id
    requires forall d :: !Leaves(env, s, Deliver(c, m, luck), d)
    ensures Find(ChunkReceived(env, s, env.deviceOf(s.live[c]), s.live[c], m, luck).inbox.incoming, id)
         == NextTransfer(env, s, Deliver(c, m, luck), id)
  {
    hide ChunkReceived, NextTransfer, Structured, Find, Leaves, Heard, Unwritable, Completes, FileOf;
    ChunkViews(env, s, c, m, luck);
    ChunkedTransfer(env, s, Deliver(c, m, luck), ChunkReceived(env, s, env.deviceOf(s.live[c]), s.live[c], m, luck), id);
  }

  /** Every other heard message leaves transfer `id` alone or ends it. */
  lemma OtherTransfer(env: Env, s: State, a: Action, after: State, id: TransferId)
    requires a.Deliver? && Heard(env, s, a.conn, a.message) && !a.message.FileOffer? && !a.message.FileChunk?
    requires id in s.inbox.incoming ==> s.inbox.incoming[id].id == id
    requires forall d :: !Leaves(env, s, a, d)
    requires after.inbox.incoming ==
      match a.message
      case FileCancel(i) => s.inbox.incoming - {i}
      case FileError(i) => s.inbox.incoming - {i}
      case FileDone(i) =>
        if i in s.inbox.incoming && s.inbox.incoming[i].received != s.inbox.incoming[i].size
        then s.inbox.incoming - {i} else s.inbox.incoming
      case _ => s.inbox.incoming
    ensures Find(after.inbox.incoming, id) == NextTransfer(env, s, a, id)
  {
    hide Leaves, Heard, Unwritable, Completes;
  }

  function Signals(s: State, m: Message): State {
    match m
    case FileAccept(i) => Signalled(s, i, Accept)
    case FileReject(i) => Signalled(s, i, Reject)
    case FileCancel(i) => Signalled(s, i, Cancel)
    case FileError(i) => Signalled(s, i, Cancel)
    case _ => s
  }

  /** What a heard message that is neither an offer nor a chunk does to transfers, texts, sends and the limit. */
  ghost predicate PlainEffect(s: State, d: Device, m: Message, after: State) {
    && after.inbox.incoming ==
       (match m
        case FileCancel(i) => s.inbox.incoming - {i}
        case FileError(i) => s.inbox.incoming - {i}
        case FileDone(i) =>
          if i in s.inbox.incoming && s.inbox.incoming[i].received != s.inbox.incoming[i].size
          then s.inbox.incoming - {i} else s.inbox.incoming
        case _ => s.inbox.incoming)
    && after.inbox.published == s.inbox.published
    && after.texts == s.texts + (if m.Text? then [(d, m.id)] else [])
    && after.outgoing == Signals(s, m).outgoing
    && after.sizeLimit == s.sizeLimit
  }

  lemma HandledPreliminary(env: Env, s: State, d: Device, key: Key, m: Message, luck: DiskLuck)
    requires Preliminary(m) && !m.PairReject?
    ensures PlainEffect(s, d, m, Handled(env, s, d, key, m, luck).0)
  {
    hide PeerAccepted, SendRaw;
    FinalizingViews(s, d);
    RawViews(s, d, Pong);
  }

  lemma HandledAnswerIs(env: Env, s: State, d: Device, key: Key, m: Message, luck: DiskLuck)
    requires Authorised(s, d)
    ensures var after := Handled(env, s, d, key, m, luck).0;
            && (m.FileCancel? || m.FileError? ==> after == IncomingAborted(Signalled(s, m.id, Cancel), m.id))
            && (m.FileDone? ==> after == DoneReceived(s, m.id))
            && (m.FileAccept? || m.FileReject? ==> after == Signals(s, m))
  {
    hide DoneReceived, IncomingAborted, Signalled;
  }

  lemma SignalledFrame(s: State, i: TransferId)
    ensures forall x :: Signalled(s, i, x) == s.(outgoing := Signalled(s, i, x).outgoing)
  {
  }

  lemma HandledAnswers(env: Env, s: State, d: Device, key: Key, m: Message, luck: DiskLuck)
    requires Authorised(s, d) && (m.FileAccept? || m.FileReject? || m.FileCancel? || m.FileError? || m.FileDone?)
    ensures PlainEffect(s, d, m, Handled(env, s, d, key, m, luck).0)
  {
    HandledAnswerIs(env, s, d, key, m, luck);
    DoneViews(s, m.id);
    AbortViews(Signalled(s, m.id, Cancel), m.id);
    SignalledFrame(s, m.id);
    hide Handled, DoneReceived, IncomingAborted, Signalled;
  }

  lemma HandledTexts(env: Env, s: State, d: Device, key: Key, m: Message, luck: DiskLuck)
    requires Authorised(s, d) && (m.Text? || m.TextAck?)
    ensures PlainEffect(s, d, m, Handled(env, s, d, key, m, luck).0)
  {
    hide SendRaw;
    if m.Text? {
      RawViews(s.(texts := s.texts + [(d, m.id)]), d, TextAck(m.id));
    }
  }

  lemma HandledPlain(env: Env, s: State, c: ConnId, m: Message, luck: DiskLuck)
    requires c in s.live && Heard(env, s, c, m) && !m.PairReject? && !m.FileOffer? && !m.FileChunk?
    ensures PlainEffect(s, env.deviceOf(s.live[c]), m, Handled(env, s, env.deviceOf(s.live[c]), s.live[c], m, luck).0)
  {
    hide Handled, PlainEffect;
    if Preliminary(m) {
      HandledPreliminary(env, s, env.deviceOf(s.live[c]), s.live[c], m, luck);
    } else if m.Text? || m.TextAck? {
      HandledTexts(env, s, env.deviceOf(s.live[c]), s.live[c], m, luck);
    } else {
      HandledAnswers(env, s, env.deviceOf(s.live[c]), s.live[c], m, luck);
    }
  }

  lemma HandledOffersAndChunks(env: Env, s: State, c: ConnId, m: Message, luck: DiskLuck)
    requires c in s.live && Heard(env, s, c, m)
    ensures var after := Handled(env, s, env.deviceOf(s.live[c]), s.live[c], m, luck).0;
            && (m.FileOffer? ==> after == OfferReceived(s, env.deviceOf(s.live[c]), s.live[c], m, luck))
            && (m.FileChunk? ==> after == ChunkReceived(env, s, env.deviceOf(s.live[c]), s.live[c], m, luck))
  {
    hide OfferReceived, ChunkReceived;
  }

  lemma HandledTransfer(env: Env, s: State, c: ConnId, m: Message, luck: DiskLuck, id: TransferId)
    requires Structured(env, s) && c in s.live && Heard(env, s, c, m) && !m.PairReject?
    ensures Find(Handled(env, s, env.deviceOf(s.live[c]), s.live[c], m, luck).0.inbox.incoming, id)
         == NextTransfer(env, s, Deliver(c, m, luck), id)
  {
    HandledStays(env, s, c, m, luck);
    if id in s.inbox.incoming {
      IdsMatch(env, s, id);
    }
    hide Structured, Handled, OfferReceived, ChunkReceived, Leaves, NextTransfer, Find, Heard;
    HandledOffersAndChunks(env, s, c, m, luck);
    if m.FileOffer? {
      OfferTransfer(env, s, c, m, luck, id);
    } else if m.FileChunk? {
      ChunkTransfer(env, s, c, m, luck, id);
    } else {
      HandledPlain(env, s, c, m, luck);
      OtherTransfer(env, s, Deliver(c, m, luck), Handled(env, s, env.deviceOf(s.live[c]), s.live[c], m, luck).0, id);
    }
  }

  lemma SignalledSend(s: State, i: TransferId, signal: Signal, id: TransferId)
    ensures Find(Signalled(s, i, signal).outgoing, id) ==
      if id !in s.outgoing then None
      else Some(Outgoing(s.outgoing[id].to, Queued(s.outgoing[id].signals, if i == id then Some(signal) else None), s.outgoing[id].cancelled))
  {
  }

  /** The signals a heard message queues are those its kind stands for, at the send it names. */
  lemma SignalsAreQueued(env: Env, s: State, a: Action, id: TransferId)
    requires a.Deliver? && Heard(env, s, a.conn, a.message) && forall d :: !Leaves(env, s, a, d)
    ensures Find(Signals(s, a.message).outgoing, id) == NextSend(env, s, a, id)
  {
    var m := a.message;
    if m.FileAccept? || m.FileReject? || m.FileCancel? || m.FileError? {
      SignalledSend(s, m.id, if m.FileAccept? then Accept else if m.FileReject? then Reject else Cancel, id);
    }
    hide Leaves, Heard, Signalled, Find, Queued;
    assert !m.FileAccept? && !m.FileReject? && !m.FileCancel? && !m.FileError? ==> Signals(s, m) == s;
    Untouched(s, id);
  }

  lemma Untouched(s: State, id: TransferId)
    ensures Find(s.outgoing, id) ==
      if id !in s.outgoing then None
      else Some(Outgoing(s.outgoing[id].to, Queued(s.outgoing[id].signals, None), s.outgoing[id].cancelled))
  {
  }

  /** The other tables: received texts, outgoing sends, published files. */
  lemma HandledRest(env: Env, s: State, c: ConnId, m: Message, luck: DiskLuck, id: TransferId)
    requires Structured(env, s) && c in s.live && Heard(env, s, c, m) && !m.PairReject?
    ensures var after, a := Handled(env, s, env.deviceOf(s.live[c]), s.live[c], m, luck).0, Deliver(c, m, luck);
            && after.texts == s.texts + TextOf(env, s, a)
            && after.inbox.published == s.inbox.published + FileOf(env, s, a)
            && Find(after.outgoing, id) == NextSend(env, s, a, id)
  {
    HandledStays(env, s, c, m, luck);
    SignalsAreQueued(env, s, Deliver(c, m, luck), id);
    HandledOffersAndChunks(env, s, c, m, luck);
    hide Structured, Handled, OfferReceived, ChunkReceived, Leaves, NextSend, Heard, Signalled, Find, Unwritable, Completes, Naming.UniqueName;
    if m.FileOffer? {
      OfferViews(env, s, env.deviceOf(s.live[c]), s.live[c], m, luck);
    } else if m.FileChunk? {
      ChunkViews(env, s, c, m, luck);
    } else {
      HandledPlain(env, s, c, m, luck);
    }
  }

  // ---- one action ------------------------------------------------------------------------------------

  lemma TearDownViews(env: Env, s: State, c: ConnId, d: Device)
    ensures var t := TornDown(s, c, d);
            && t.trust == s.trust && t.peers == s.peers && t.texts == s.texts && t.sent == s.sent && t.conns == s.conns - {d}
            && t.inbox.published == s.inbox.published && t.inbox.incoming == s.inbox.incoming - From(s.inbox, d)
            && t.outgoing == SendsCancelled(s.outgoing, d)
  {
    AbortingViews(s.inbox, From(s.inbox, d));
    hide AbortedAll, From, SendsCancelled;
  }

  /** A loop that ends takes its device's transfers along. */
  lemma LeavingTransfer(env: Env, s: State, a: Action, c: ConnId, id: TransferId)
    requires c in s.live && (a == Drop(c) || (a.Deliver? && a.conn == c && (a.message.PairReject? || !Heard(env, s, c, a.message))))
    requires id in s.inbox.incoming ==> s.inbox.incoming[id].id == id
    ensures var t := TornDown(s, c, env.deviceOf(s.live[c]));
            && Find(t.inbox.incoming, id) == NextTransfer(env, s, a, id)
            && Find(t.outgoing, id) == NextSend(env, s, a, id)
            && TextOf(env, s, a) == [] && FileOf(env, s, a) == []
  {
    TearDownViews(env, s, c, env.deviceOf(s.live[c]));
    hide TornDown, Heard, OwnChunk, Unwritable, Completes;
  }

  lemma DeliverViews(env: Env, s: State, c: ConnId, m: Message, luck: DiskLuck, id: TransferId)
    requires Structured(env, s)
    ensures var after, a := Delivered(env, s, c, m, luck), Deliver(c, m, luck);
            && Find(after.inbox.incoming, id) == NextTransfer(env, s, a, id)
            && Find(after.outgoing, id) == NextSend(env, s, a, id)
            && after.texts == s.texts + TextOf(env, s, a)
            && after.inbox.published == s.inbox.published + FileOf(env, s, a)
  {
    if c !in s.live {
      NothingArrives(env, s, c, m, luck, id);
    } else {
      HandledStays(env, s, c, m, luck);
      if m.PairReject? || !Heard(env, s, c, m) {
        HandledKeepsSilence(env, s, c, m, luck);
      }
      if id in s.inbox.incoming {
        IdsMatch(env, s, id);
      }
      hide Structured, Handled, TornDown, NextTransfer, NextSend, TextOf, FileOf, Leaves;
      if Heard(env, s, c, m) && !m.PairReject? {
        HandledTransfer(env, s, c, m, luck, id);
        HandledRest(env, s, c, m, luck, id);
      } else {
        LeavingTransfer(env, s, Deliver(c, m, luck), c, id);
        TearDownViews(env, s, c, env.deviceOf(s.live[c]));
      }
    }
  }

  lemma HandledKeepsSilence(env: Env, s: State, c: ConnId, m: Message, luck: DiskLuck)
    requires Base(env, s) && c in s.live && (m.PairReject? || !Heard(env, s, c, m))
    ensures Handled(env, s, env.deviceOf(s.live[c]), s.live[c], m, luck).0 == s
  {
    LiveIsConnected(env, s, c);
    hide Base;
  }

  lemma NothingArrives(env: Env, s: State, c: ConnId, m: Message, luck: DiskLuck, id: TransferId)
    requires c !in s.live
    ensures var a := Deliver(c, m, luck);
            && Find(s.inbox.incoming, id) == NextTransfer(env, s, a, id)
            && Find(s.outgoing, id) == NextSend(env, s, a, id)
            && TextOf(env, s, a) == [] && FileOf(env, s, a) == []
  {
  }

  // ---- connections and stored keys ------------------------------------------------------------------

  /** Where a pairing stands once `d`'s flags are set: it completes when both are and the store has room. */
  lemma FinalizedViews(env: Env, s: State, d: Device)
    requires d in s.conns && (s.conns[d].authorised || s.conns[d].key !in s.trust)
    ensures var after := PairingFinalized(s, d);
            var joins := !s.conns[d].authorised && s.conns[d].localOk && s.conns[d].remoteOk && |s.trust| < 256;
            && after.conns == (if joins then s.conns[d := s.conns[d].(authorised := true)] else s.conns)
            && after.trust == (if joins then s.trust[s.conns[d].key := Trusted(false, false)] else s.trust)
  {
  }

  lemma UnstoredWhileUnpaired(env: Env, s: State, d: Device)
    requires Base(env, s) && d in s.conns
    ensures s.conns[d].authorised || s.conns[d].key !in s.trust
    ensures env.deviceOf(s.conns[d].key) == d
  {
  }

  /** The peer's or the user's agreement with `d`, as one change of its entry and of the store. */
  lemma AgreementViews(env: Env, s: State, a: Action, d: Device)
    requires Base(env, s) && d in s.conns
    requires a == AnswerPairing(d, true) || (Arrives(env, s, a, d) && a.message.PairAccept?)
    ensures var after := if a.AnswerPairing? then PairingAnswered(s, d, true) else PeerAccepted(s, d);
            && after.conns == s.conns[d := s.conns[d].(
                 localOk := LocallyAgreed(s, a, d), remoteOk := RemotelyAgreed(env, s, a, d),
                 authorised := s.conns[d].authorised || Joins(env, s, a, d))]
            && after.trust == (if Joins(env, s, a, d) then s.trust[s.conns[d].key := Trusted(false, false)] else s.trust)
  {
    UnstoredWhileUnpaired(env, s, d);
    hide PairingFinalized, SendRaw, Base, Heard, Arrives;
    var k := s.conns[d];
    if a.AnswerPairing? {
      var agreed := s.(conns := s.conns[d := k.(localOk := true)]);
      RawViews(agreed, d, PairAccept);
      FinalizedViews(env, SendRaw(agreed, d, PairAccept), d);
    } else {
      FinalizedViews(env, s.(conns := s.conns[d := k.(remoteOk := true)]), d);
    }
  }

  lemma ClosedConn(s: State, d: Device, e: Device)
    ensures Find(Closed(s, d).conns, e) ==
      if e in s.conns && e == d then Some(s.conns[e].(closed := true)) else Find(s.conns, e)
    ensures Closed(s, d).trust == s.trust
  {
  }

  lemma CommandConn(env: Env, s: State, d: Device, on: bool, e: Device)
    ensures var shut := if e in s.conns && e == d then Some(s.conns[e].(closed := true)) else Find(s.conns, e);
            && Find(Forgotten(env, s, d).conns, e) == shut
            && Find(BlockedSet(env, s, d, on).conns, e) == (if on then shut else Find(s.conns, e))
            && Find(AutoAcceptSet(env, s, d, on).conns, e) == Find(s.conns, e)
  {
    hide Closed, Find;
    if KeyFor(env, s, d).Some? {
      var key := KeyFor(env, s, d).value;
      ClosedConn(s, d, e);
      ClosedConn(s.(trust := s.trust - {key}), d, e);
      if key in s.trust {
        ClosedConn(s.(trust := s.trust[key := s.trust[key].(blocked := on)]), d, e);
      }
    } else {
      NotConnected(env, s, d, e);
    }
  }

  lemma NotConnected(env: Env, s: State, d: Device, e: Device)
    requires KeyFor(env, s, d) == None
    ensures d !in s.conns && (e in s.conns ==> e != d)
  {
  }

  lemma OpenedConn(env: Env, s: State, key: Key, weDialed: bool, expected: Option<Key>, e: Device)
    ensures Find(Opened(env, s, key, weDialed, expected).conns, e) == NextConn(env, s, Open(key, weDialed, expected), e)
    ensures Opened(env, s, key, weDialed, expected).trust == s.trust
  {
  }

  lemma DeliveredConn(env: Env, s: State, c: ConnId, m: Message, luck: DiskLuck, e: Device)
    requires Base(env, s)
    ensures Find(Delivered(env, s, c, m, luck).conns, e) == NextConn(env, s, Deliver(c, m, luck), e)
  {
    var a := Deliver(c, m, luck);
    if c in s.live {
      var d, key := env.deviceOf(s.live[c]), s.live[c];
      HandledStays(env, s, c, m, luck);
      LiveIsConnected(env, s, c);
      var after := Handled(env, s, d, key, m, luck).0;
      if m.PairReject? || !Heard(env, s, c, m) {
        HandledKeepsSilence(env, s, c, m, luck);
        TearDownViews(env, s, c, d);
      } else if m.PairAccept? {
        PairAcceptHandled(env, s, d, key, luck);
        AgreementViews(env, s, a, d);
      } else {
        HandledKeepsLinks(env, s, d, key, m, luck);
      }
      hide Base, Handled, TornDown, PeerAccepted, Heard, Leaves;
    }
  }

  lemma AnsweredConn(env: Env, s: State, d: Device, accept: bool, e: Device)
    requires Base(env, s)
    ensures Find(PairingAnswered(s, d, accept).conns, e) == NextConn(env, s, AnswerPairing(d, accept), e)
  {
    hide Base, PairingFinalized, SendRaw, Closed, PeerAccepted;
    if d in s.conns {
      if accept {
        AgreementViews(env, s, AnswerPairing(d, true), d);
      } else {
        RawViews(s, d, PairReject);
        ClosedConn(SendRaw(s, d, PairReject), d, e);
      }
    }
  }

  lemma StepConn(env: Env, s: State, a: Action, d: Device)
    requires Base(env, s)
    ensures Find(Step(env, s, a).conns, d) == NextConn(env, s, a, d)
  {
    hide Base, Opened, Delivered, PairingAnswered, OfferAnswered, TransferCancelled, SendTo, Closed, Forgotten, BlockedSet, AutoAcceptSet,
         TornDown, Find, Heard, Admitted, NextConn;
    match a
    case Open(key, weDialed, expected) => OpenedConn(env, s, key, weDialed, expected, d);
    case Deliver(c, m, luck) => DeliveredConn(env, s, c, m, luck, d);
    case Drop(c) => DroppedConn(env, s, c, d);
    case AnswerPairing(e, accept) => AnsweredConn(env, s, e, accept, d);
    case AnswerOffer(id, accept, opens) => AnswerKeepsLinks(s, id, accept, opens); QuietConn(env, s, a, d);
    case CancelTransfer(id) => CancelKeepsLinks(s, id); QuietConn(env, s, a, d);
    case Send(e, m) => SendToViews(s, e, m); QuietConn(env, s, a, d);
    case Disconnect(e) => ClosedConn(s, e, d); ShutConn(env, s, a, d);
    case Forget(e) => CommandConn(env, s, e, true, d); ShutConn(env, s, a, d);
    case SetBlocked(e, on) => CommandConn(env, s, e, on, d); ShutConn(env, s, a, d); QuietConn(env, s, a, d);
    case SetAutoAccept(e, on) => CommandConn(env, s, e, on, d); QuietConn(env, s, a, d);
    case _ => QuietConn(env, s, a, d);
  }

  lemma SendToViews(s: State, d: Device, m: Message)
    ensures SendTo(s, d, m) == s.(sent := SendTo(s, d, m).sent)
  {
  }

  /** An action about none of the connections. */
  predicate Quiet(a: Action) {
    !a.Open? && !a.Deliver? && !a.Drop? && !a.AnswerPairing? && !a.Disconnect? && !a.Forget? && !(a.SetBlocked? && a.on)
  }

  lemma QuietConn(env: Env, s: State, a: Action, d: Device)
    ensures Quiet(a) ==> NextConn(env, s, a, d) == Find(s.conns, d)
  {
  }

  lemma ShutConn(env: Env, s: State, a: Action, d: Device)
    requires a.Disconnect? || a.Forget? || a.SetBlocked?
    ensures Shuts(a, d) ==> NextConn(env, s, a, d) == if d in s.conns then Some(s.conns[d].(closed := true)) else Find(s.conns, d)
    ensures !Shuts(a, d) ==> NextConn(env, s, a, d) == Find(s.conns, d)
  {
  }

  lemma DroppedConn(env: Env, s: State, c: ConnId, d: Device)
    ensures Find(Step(env, s, Drop(c)).conns, d) == NextConn(env, s, Drop(c), d)
  {
    if c in s.live {
      TearDownViews(env, s, c, env.deviceOf(s.live[c]));
    }
    hide TornDown;
  }

  /** Pairing stores the key of its own device, and no other. */
  lemma JoinedTrust(env: Env, s: State, a: Action, d: Device, after: State, k: Key)
    requires Base(env, s) && d in s.conns
    requires a == AnswerPairing(d, true) || (Arrives(env, s, a, d) && a.message.PairAccept?)
    requires after.trust == (if Joins(env, s, a, d) then s.trust[s.conns[d].key := Trusted(false, false)] else s.trust)
    ensures Find(after.trust, k) == NextTrust(env, s, a, k)
  {
    UnstoredWhileUnpaired(env, s, d);
    hide Base, Heard;
    assert forall e :: Joins(env, s, a, e) ==> e == d;
  }

  lemma NoJoin(env: Env, s: State, a: Action)
    requires !(a.AnswerPairing? && a.accept) && !(a.Deliver? && a.message.PairAccept?)
    ensures forall d :: !Joins(env, s, a, d)
  {
  }

  lemma ForgetTrust(env: Env, s: State, d: Device, k: Key)
    ensures Find(Forgotten(env, s, d).trust, k) == NextTrust(env, s, Forget(d), k)
  {
    NoJoin(env, s, Forget(d));
    hide KeyFor, Joins, Closed;
    if KeyFor(env, s, d).Some? {
      ClosedConn(s.(trust := s.trust - {KeyFor(env, s, d).value}), d, d);
    }
  }

  lemma BlockTrust(env: Env, s: State, d: Device, on: bool, k: Key)
    ensures Find(BlockedSet(env, s, d, on).trust, k) == NextTrust(env, s, SetBlocked(d, on), k)
  {
    NoJoin(env, s, SetBlocked(d, on));
    hide KeyFor, Joins, Closed;
    if KeyFor(env, s, d).Some? {
      var key := KeyFor(env, s, d).value;
      ClosedConn(s, d, d);
      if key in s.trust {
        ClosedConn(s.(trust := s.trust[key := s.trust[key].(blocked := on)]), d, d);
      }
    }
  }

  lemma AutoAcceptTrust(env: Env, s: State, d: Device, on: bool, k: Key)
    ensures Find(AutoAcceptSet(env, s, d, on).trust, k) == NextTrust(env, s, SetAutoAccept(d, on), k)
  {
    NoJoin(env, s, SetAutoAccept(d, on));
    hide KeyFor, Joins;
  }

  lemma StepTrust(env: Env, s: State, a: Action, k: Key)
    requires Base(env, s)
    ensures Find(Step(env, s, a).trust, k) == NextTrust(env, s, a, k)
  {
    hide Opened, Delivered, PairingAnswered, OfferAnswered, TransferCancelled, SendTo, Closed, Forgotten, BlockedSet, AutoAcceptSet,
         TornDown, Joins, LinksOk, TrustOk;
    if a.AnswerPairing? {
      AnsweredTrust(env, s, a.device, a.accept, k);
    } else if a.Deliver? {
      DeliveredTrust(env, s, a.conn, a.message, a.luck, k);
    } else {
      NoJoin(env, s, a);
      match a
      case Open(key, weDialed, expected) => OpenedConn(env, s, key, weDialed, expected, 0);
      case Drop(c) => if c in s.live { TearDownViews(env, s, c, env.deviceOf(s.live[c])); }
      case AnswerOffer(id, accept, opens) => AnswerKeepsLinks(s, id, accept, opens);
      case CancelTransfer(id) => CancelKeepsLinks(s, id);
      case Send(e, m) => SendToViews(s, e, m);
      case Disconnect(e) => ClosedConn(s, e, e);
      case Forget(e) => ForgetTrust(env, s, e, k);
      case SetBlocked(e, on) => BlockTrust(env, s, e, on, k);
      case SetAutoAccept(e, on) => AutoAcceptTrust(env, s, e, on, k);
      case _ =>
    }
  }

  lemma AnsweredTrust(env: Env, s: State, d: Device, accept: bool, k: Key)
    requires Base(env, s)
    ensures Find(PairingAnswered(s, d, accept).trust, k) == NextTrust(env, s, AnswerPairing(d, accept), k)
  {
    if d in s.conns && accept {
      AgreementViews(env, s, AnswerPairing(d, true), d);
      JoinedTrust(env, s, AnswerPairing(d, true), d, PairingAnswered(s, d, true), k);
    } else {
      RawViews(s, d, PairReject);
      ClosedConn(SendRaw(s, d, PairReject), d, d);
      hide Base, SendRaw, Closed;
      assert forall e :: !Joins(env, s, AnswerPairing(d, accept), e);
    }
  }

  lemma DeliveredTrust(env: Env, s: State, c: ConnId, m: Message, luck: DiskLuck, k: Key)
    requires Base(env, s)
    ensures Find(Delivered(env, s, c, m, luck).trust, k) == NextTrust(env, s, Deliver(c, m, luck), k)
  {
    var a := Deliver(c, m, luck);
    if c in s.live && m.PairAccept? {
      var d := env.deviceOf(s.live[c]);
      LiveIsConnected(env, s, c);
      PairAcceptHandled(env, s, d, s.live[c], luck);
      AgreementViews(env, s, a, d);
      JoinedTrust(env, s, a, d, PeerAccepted(s, d), k);
      hide Base, Handled, PeerAccepted, NextTrust;
    } else {
      assert forall e :: !Joins(env, s, a, e);
      if c in s.live {
        HandledKeepsLinks(env, s, env.deviceOf(s.live[c]), s.live[c], m, luck);
        TearDownViews(env, Handled(env, s, env.deviceOf(s.live[c]), s.live[c], m, luck).0, c, env.deviceOf(s.live[c]));
      }
      hide Base, Handled, TornDown, Joins;
    }
  }

  // ---- transfers, sends, texts and files -----------------------------------------------------------

  lemma AnsweredTransfer(env: Env, s: State, i: TransferId, accept: bool, works: bool, id: TransferId)
    requires forall j :: j in s.inbox.incoming ==> s.inbox.incoming[j].id == j
    ensures Find(OfferAnswered(s, i, accept, works).inbox.incoming, id) == NextTransfer(env, s, AnswerOffer(i, accept, works), id)
  {
    AnswerViews(s, i, accept, works);
    hide OfferAnswered;
  }

  lemma CancelViews(s: State, i: TransferId)
    ensures var after := TransferCancelled(s, i);
            && after.texts == s.texts && after.inbox.published == s.inbox.published
            && after.inbox.incoming == (if i in s.outgoing then s.inbox.incoming else s.inbox.incoming - {i})
            && after.outgoing == (if i in s.outgoing then s.outgoing[i := s.outgoing[i].(cancelled := true)] else s.outgoing)
  {
    hide IncomingAborted, SendRaw;
    if i in s.outgoing {
      SendToViews(s.(outgoing := s.outgoing[i := s.outgoing[i].(cancelled := true)]), s.outgoing[i].to, FileCancel(i));
    } else if i in s.inbox.incoming {
      RawViews(s, s.inbox.incoming[i].from, FileCancel(i));
      AbortViews(SendRaw(s, s.inbox.incoming[i].from, FileCancel(i)), i);
    } else {
      assert s.inbox.incoming - {i} == s.inbox.incoming;
    }
    hide SendTo;
  }

  lemma CancelledViews(env: Env, s: State, i: TransferId, id: TransferId)
    requires forall j :: j in s.inbox.incoming ==> s.inbox.incoming[j].id == j
    ensures var after := TransferCancelled(s, i);
            && Find(after.inbox.incoming, id) == NextTransfer(env, s, CancelTransfer(i), id)
            && Find(after.outgoing, id) == NextSend(env, s, CancelTransfer(i), id)
            && after.texts == s.texts && after.inbox.published == s.inbox.published
  {
    CancelViews(s, i);
    hide TransferCancelled;
  }

  /** Actions that neither begin, change nor end a transfer, nor signal or end a send. */
  predicate Unrelated(a: Action) {
    !a.Deliver? && !a.Drop? && !a.AnswerOffer? && !a.CancelTransfer? && !a.StartSend? && !a.EndSend?
  }

  lemma UnrelatedViews(env: Env, s: State, a: Action, id: TransferId)
    requires Unrelated(a)
    ensures NextTransfer(env, s, a, id) == Find(s.inbox.incoming, id) && NextSend(env, s, a, id) == Find(s.outgoing, id)
    ensures TextOf(env, s, a) == [] && FileOf(env, s, a) == []
  {
  }

  lemma OpenViews(env: Env, s: State, key: Key, weDialed: bool, expected: Option<Key>)
    ensures var t := Opened(env, s, key, weDialed, expected); t.inbox == s.inbox && t.outgoing == s.outgoing && t.texts == s.texts
    ensures Opened(env, s, key, weDialed, expected).sizeLimit == s.sizeLimit
  {
  }

  lemma UnrelatedStep(env: Env, s: State, a: Action)
    requires Unrelated(a)
    ensures var t := Step(env, s, a); t.inbox == s.inbox && t.outgoing == s.outgoing && t.texts == s.texts
    ensures Step(env, s, a).sizeLimit == if a.Configure? then a.sizeLimit else s.sizeLimit
  {
    hide Opened, PairingAnswered, SendTo, Closed, Forgotten, BlockedSet, AutoAcceptSet;
    match a
    case Open(key, weDialed, expected) => OpenViews(env, s, key, weDialed, expected);
    case AnswerPairing(d, accept) => PairingFrame(s, d, accept);
    case Send(d, m) => SendToViews(s, d, m);
    case Disconnect(d) => CommandFrame(env, s, d, true);
    case Forget(d) => CommandFrame(env, s, d, true);
    case SetBlocked(d, on) => CommandFrame(env, s, d, on);
    case SetAutoAccept(d, on) => CommandFrame(env, s, d, on);
    case _ =>
  }

  ghost predicate IdsOk(x: Inbox) {
    forall i :: i in x.incoming ==> x.incoming[i].id == i
  }

  lemma StructuredIds(env: Env, s: State)
    requires Structured(env, s)
    ensures IdsOk(s.inbox)
  {
    hide Counted, Held, Owned;
  }

  /** What one action does to transfer `id`, to send `id`, to the texts and to the published files. */
  lemma StepTransfer(env: Env, s: State, a: Action, id: TransferId)
    requires Structured(env, s)
    ensures var after := Step(env, s, a);
            && Find(after.inbox.incoming, id) == NextTransfer(env, s, a, id)
            && Find(after.outgoing, id) == NextSend(env, s, a, id)
            && after.texts == s.texts + TextOf(env, s, a)
            && after.inbox.published == s.inbox.published + FileOf(env, s, a)
  {
    StructuredIds(env, s);
    hide Structured, Delivered, OfferAnswered, TransferCancelled, TornDown, Leaves;
    if Unrelated(a) {
      UnrelatedStep(env, s, a);
      UnrelatedViews(env, s, a, id);
    } else {
      match a
      case Deliver(c, m, luck) => DeliverViews(env, s, c, m, luck, id);
      case Drop(c) => DropViews(env, s, c, id);
      case AnswerOffer(i, accept, opens) =>
        AnsweredTransfer(env, s, i, accept, opens, id);
        AnsweredRest(env, s, i, accept, opens, id);
      case CancelTransfer(i) => CancelledViews(env, s, i, id);
      case _ => SendTableViews(env, s, a, id);
    }
  }

  lemma AnsweredRest(env: Env, s: State, i: TransferId, accept: bool, works: bool, id: TransferId)
    requires IdsOk(s.inbox)
    ensures var after, a := OfferAnswered(s, i, accept, works), AnswerOffer(i, accept, works);
            && Find(after.outgoing, id) == NextSend(env, s, a, id) && after.texts == s.texts && after.inbox.published == s.inbox.published
  {
    AnswerViews(s, i, accept, works);
    hide OfferAnswered;
  }

  lemma DropViews(env: Env, s: State, c: ConnId, id: TransferId)
    requires IdsOk(s.inbox)
    ensures var after, a := Step(env, s, Drop(c)), Drop(c);
            && Find(after.inbox.incoming, id) == NextTransfer(env, s, a, id)
            && Find(after.outgoing, id) == NextSend(env, s, a, id)
            && after.texts == s.texts && after.inbox.published == s.inbox.published
  {
    if c in s.live {
      LeavingTransfer(env, s, Drop(c), c, id);
      TearDownViews(env, s, c, env.deviceOf(s.live[c]));
      hide TornDown, NextTransfer, NextSend;
    }
  }

  lemma SendTableViews(env: Env, s: State, a: Action, id: TransferId)
    requires a.StartSend? || a.EndSend?
    ensures var after := Step(env, s, a);
            && Find(after.inbox.incoming, id) == NextTransfer(env, s, a, id)
            && Find(after.outgoing, id) == NextSend(env, s, a, id)
            && after.texts == s.texts && after.inbox.published == s.inbox.published
  {
  }
}
