/** Where published bytes come from: each file is what its own peer sent for it, and nothing else. */
module EngineFiles {
  import opened Prelude
  import opened Transfers
  import opened Engines
  import opened EngineInvariant
  import opened EngineConsent
  import Naming

  // ---- what one step can do to the inbox ----------------------------------------------

  predicate SameTransfer(t: Transfer, u: Transfer) {
    u == t.(accepted := u.accepted)
  }

  /** Transfers may leave, none changes its bytes and nothing is published. */
  predicate Kept(x: Inbox, y: Inbox) {
    && y.published == x.published
    && forall id :: id in y.incoming ==> id in x.incoming && SameTransfer(x.incoming[id], y.incoming[id])
  }

  /** The data the step carries for transfer `u`, if it comes from the peer that offered it. */
  function DataFor(before: State, a: Action, u: Transfer): Bytes {
    if && a.Deliver? && a.conn in before.live && before.live[a.conn] == u.fromKey
       && a.message.FileChunk? && a.message.id == u.id
    then a.message.data
    else []
  }

  /** The step takes in `u` as a new offer of an authorised peer. */
  ghost predicate NewOffer(env: Env, before: State, a: Action, u: Transfer) {
    && a.Deliver? && a.conn in before.live && before.live[a.conn] == u.fromKey
    && u.from == env.deviceOf(u.fromKey) && u.from in before.conns && before.conns[u.from].authorised
    && before.conns[u.from].serial == a.conn
    && a.message.FileOffer?
    && SameTransfer(Offered(a.message.id, u.from, u.fromKey, a.message.name, a.message.size, a.message.sha), u)
  }

  /** `u` continues a transfer of the state before, extended by the data of the step. */
  predicate Continues(before: State, a: Action, u: Transfer) {
    && u.id in before.inbox.incoming
    && var t := before.inbox.incoming[u.id];
       && u == t.(accepted := u.accepted, received := u.received, hashed := u.hashed)
       && u.hashed == t.hashed + DataFor(before, a, u)
  }

  ghost predicate InboxStep(env: Env, before: State, a: Action, after: State) {
    && (forall id :: id in after.inbox.incoming ==>
         || NewOffer(env, before, a, after.inbox.incoming[id])
         || Continues(before, a, after.inbox.incoming[id]))
    && (forall p :: p in after.inbox.published ==> p in before.inbox.published || Continues(before, a, p.transfer))
  }

  // ---- steps that bring no data -----------------------------------------------------------

  lemma AbortingKeeps(x: Inbox, gone: set<TransferId>)
    ensures Kept(x, AbortedAll(x, gone))
  {
  }

  lemma KeptNone(x: Inbox)
    ensures Kept(x, x)
  {
  }

  lemma KeptTwice(x: Inbox, y: Inbox, z: Inbox)
    requires Kept(x, y) && Kept(y, z)
    ensures Kept(x, z)
  {
  }

  lemma AbortKeeps(s: State, id: TransferId)
    ensures Kept(s.inbox, IncomingAborted(s, id).inbox)
    ensures Kept(s.inbox, DoneReceived(s, id).inbox)
  {
    hide AbortedAll;
    AbortingKeeps(s.inbox, {id});
  }

  lemma AnswerKeeps(s: State, id: TransferId, accept: bool, works: bool)
    requires Placed(s.inbox, s.conns)
    ensures Kept(s.inbox, OfferAnswered(s, id, accept, works).inbox)
  {
    hide IncomingAborted, SendRaw, Kept;
    KeptNone(s.inbox);
    if id in s.inbox.incoming {
      var t := s.inbox.incoming[id];
      var (u, f, ok) := Accepted(t, s.inbox.folders, works);
      var begun := s.(inbox := WithTransfer(s.inbox, u, f));
      AcceptingKeeps(s.inbox, t, works);
      AbortKeeps(s, id);
      AbortKeeps(begun, id);
      KeptTwice(s.inbox, begun.inbox, IncomingAborted(begun, id).inbox);
      SendingKeepsLinks(IncomingAborted(s, id), t.from, FileReject(id));
      SendingKeepsLinks(begun, t.from, FileAccept(id));
      SendingKeepsLinks(IncomingAborted(begun, id), t.from, FileReject(id));
    }
  }

  lemma AcceptingKeeps(x: Inbox, t: Transfer, works: bool)
    requires t.id in x.incoming && x.incoming[t.id] == t
    ensures var (u, f, ok) := Accepted(t, x.folders, works);
            Kept(x, WithTransfer(x, u, f))
  {
  }

  lemma CancelKeeps(s: State, id: TransferId)
    ensures Kept(s.inbox, TransferCancelled(s, id).inbox)
  {
    hide IncomingAborted, SendRaw;
    if id in s.outgoing {
      SendingKeepsLinks(s.(outgoing := s.outgoing[id := s.outgoing[id].(cancelled := true)]), s.outgoing[id].to, FileCancel(id));
    } else if id in s.inbox.incoming {
      var told := SendRaw(s, s.inbox.incoming[id].from, FileCancel(id));
      SendingKeepsLinks(s, s.inbox.incoming[id].from, FileCancel(id));
      AbortKeeps(told, id);
    }
  }

  lemma KeptIsInboxStep(env: Env, before: State, a: Action, after: State)
    requires Kept(before.inbox, after.inbox) && Placed(before.inbox, before.conns)
    requires !(a.Deliver? && a.message.FileChunk?)
    ensures InboxStep(env, before, a, after)
  {
    hide Counted, Held, Owned;
  }

  /** Everything but an offer or a chunk leaves the bytes of every transfer alone. */
  lemma HandledKeeps(env: Env, s: State, d: Device, key: Key, m: Message, luck: DiskLuck)
    requires !m.FileOffer? && !m.FileChunk?
    ensures Kept(s.inbox, Handled(env, s, d, key, m, luck).0.inbox)
  {
    hide IncomingAborted, PeerAccepted, SendRaw, DoneReceived, Kept, Signalled;
    KeptNone(s.inbox);
    SignallingKeeps(s, if m.FileAccept? || m.FileReject? || m.FileCancel? || m.FileError? then m.id else 0);
    match m
    case Ping => SendingKeepsLinks(s, d, Pong);
    case Text(id) => SendingKeepsLinks(s.(texts := s.texts + [(d, id)]), d, TextAck(id));
    case FileDone(id) => AbortKeeps(s, id);
    case FileCancel(id) => AbortKeeps(Signalled(s, id, Cancel), id);
    case FileError(id) => AbortKeeps(Signalled(s, id, Cancel), id);
    case PairAccept => FinalizeKeepsInbox(s, d);
    case _ =>
  }

  lemma SignallingKeeps(s: State, id: TransferId)
    ensures forall signal :: Signalled(s, id, signal).inbox == s.inbox
  {
  }

  lemma FinalizeKeepsInbox(s: State, d: Device)
    ensures PeerAccepted(s, d).inbox == s.inbox
    ensures forall accept :: PairingAnswered(s, d, accept).inbox == s.inbox
  {
  }

  lemma TearDownKeeps(s: State, c: ConnId, d: Device)
    ensures Kept(s.inbox, TornDown(s, c, d).inbox)
  {
    hide AbortedAll;
    AbortingKeeps(s.inbox, From(s.inbox, d));
  }

  // ---- offers and chunks -----------------------------------------------------------------------

  /** A step on the receiver's own state, seen as a step of the run. */
  lemma OfferIsInboxStep(env: Env, s: State, c: ConnId, m: Message, luck: DiskLuck)
    requires Structured(env, s) && c in s.live && m.FileOffer?
    requires s.conns[env.deviceOf(s.live[c])].authorised
    ensures InboxStep(env, s, Deliver(c, m, luck), OfferReceived(s, env.deviceOf(s.live[c]), s.live[c], m, luck))
  {
    hide LinksOk, TrustOk, OfferAnswered, SendRaw, Counted, Held, Owned, Offered, NewOffer;
    var d, key, a := env.deviceOf(s.live[c]), s.live[c], Deliver(c, m, luck);
    LiveIsConnected(env, s, c);
    KeptIsInboxStep(env, s, a, s);
    SendingKeepsLinks(s, d, FileReject(m.id));
    if |s.inbox.incoming| < MAX_INCOMING_TRANSFERS && m.id !in s.inbox.incoming && !(0 < s.sizeLimit < m.size) {
      var t := Offered(m.id, d, key, m.name, m.size, m.sha);
      var taken := s.(inbox := OfferTaken(s.inbox, t));
      TakenIsInboxStep(env, s, c, m, luck);
      if key in s.trust && s.trust[key].autoAccept {
        TakenIsPlaced(env, s, d, key, m);
        AnswerKeeps(taken, m.id, true, luck.opens);
        KeptAfterInboxStep(env, s, a, taken, OfferAnswered(taken, m.id, true, luck.opens));
      }
    }
  }

  lemma TakenIsPlaced(env: Env, s: State, d: Device, key: Key, m: Message)
    requires Structured(env, s) && m.FileOffer? && m.id !in s.inbox.incoming && |s.inbox.incoming| < MAX_INCOMING_TRANSFERS
    requires d in s.conns && s.conns[d].key == key && s.conns[d].authorised
    ensures Placed(OfferTaken(s.inbox, Offered(m.id, d, key, m.name, m.size, m.sha)), s.conns)
  {
    hide LinksOk, TrustOk, Structure, Placed, OfferTaken;
    var t := Offered(m.id, d, key, m.name, m.size, m.sha);
    StructureParts(env.sha256, s.inbox, s.conns);
    OfferIsConsistent(m.id, d, key, m.name, m.size, m.sha, s.inbox.folders);
    TakingKeepsStructure(env.sha256, s.inbox, s.conns, t);
    StructureParts(env.sha256, OfferTaken(s.inbox, t), s.conns);
  }

  lemma TakenIsInboxStep(env: Env, s: State, c: ConnId, m: Message, luck: DiskLuck)
    requires Structured(env, s) && c in s.live && m.FileOffer?
    requires s.conns[env.deviceOf(s.live[c])].authorised
    ensures var d, key := env.deviceOf(s.live[c]), s.live[c];
            var taken := s.(inbox := OfferTaken(s.inbox, Offered(m.id, d, key, m.name, m.size, m.sha)));
            InboxStep(env, s, Deliver(c, m, luck), taken)
  {
    hide LinksOk, TrustOk, Counted, Held, Owned;
    LiveIsConnected(env, s, c);
  }

  lemma KeptAfterInboxStep(env: Env, before: State, a: Action, middle: State, after: State)
    requires InboxStep(env, before, a, middle) && Kept(middle.inbox, after.inbox)
    ensures InboxStep(env, before, a, after)
  {
  }

  lemma IgnoredChunk(env: Env, s: State, a: Action)
    requires Placed(s.inbox, s.conns)
    requires a.Deliver? && a.message.FileChunk?
    requires a.message.id in s.inbox.incoming && a.conn in s.live ==> s.inbox.incoming[a.message.id].fromKey != s.live[a.conn]
    ensures InboxStep(env, s, a, s)
  {
    hide Counted, Held, Owned;
  }

  lemma WrittenChunk(env: Env, s: State, c: ConnId, m: Message, luck: DiskLuck)
    requires Placed(s.inbox, s.conns) && c in s.live && m.FileChunk? && m.id in s.inbox.incoming
    requires s.inbox.incoming[m.id].fromKey == s.live[c]
    ensures var (u, f, r) := ChunkWritten(s.inbox.incoming[m.id], s.inbox.folders, m.offset, m.data, luck.writes);
            && u.id == m.id
            && (r.Ok? ==> Continues(s, Deliver(c, m, luck), u))
            && (r.Ok? ==> InboxStep(env, s, Deliver(c, m, luck), s.(inbox := WithTransfer(s.inbox, u, f))))
            && InboxStep(env, s, Deliver(c, m, luck), s.(inbox := AbortedAll(WithTransfer(s.inbox, u, f), {m.id})))
  {
    hide Counted, Held, Owned;
  }

  lemma RemovedIsInboxStep(env: Env, before: State, a: Action, s: State, id: TransferId, f: Folders)
    requires InboxStep(env, before, a, s)
    ensures InboxStep(env, before, a, s.(inbox := Removed(s.inbox, id, f)))
  {
    hide Continues, NewOffer;
  }

  lemma PublishedIsInboxStep(env: Env, before: State, a: Action, s: State, p: Published)
    requires InboxStep(env, before, a, s) && Continues(before, a, p.transfer)
    ensures InboxStep(env, before, a, s.(inbox := s.inbox.(published := s.inbox.published + [p])))
  {
    hide Continues, NewOffer;
  }

  lemma CompletedIsInboxStep(env: Env, before: State, a: Action, s: State, d: Device, t: Transfer, works: bool)
    requires InboxStep(env, before, a, s) && Continues(before, a, t)
    ensures InboxStep(env, before, a, Completed(env, s, d, t, works))
  {
    hide Finished, Continues, InboxStep, Removed;
    var (f, r) := Finished(t, s.inbox.folders, env.sha256, env.pid, works);
    var left := s.(inbox := Removed(s.inbox, t.id, f));
    RemovedIsInboxStep(env, before, a, s, t.id, f);
    OnlyPartsArePublished(t, s.inbox.folders, env.sha256, env.pid, works);
    if r.Ok? {
      PublishedIsInboxStep(env, before, a, left, Published(t, r.value, s.inbox.folders.parts[t.id]));
    } else {
      InboxStepLooksAtInbox(env, before, a, left, Completed(env, s, d, t, works));
    }
  }

  lemma ChunkIsInboxStep(env: Env, s: State, c: ConnId, m: Message, luck: DiskLuck)
    requires Structured(env, s) && c in s.live && m.FileChunk?
    ensures InboxStep(env, s, Deliver(c, m, luck), ChunkReceived(env, s, env.deviceOf(s.live[c]), s.live[c], m, luck))
  {
    hide LinksOk, TrustOk, Structure, Faithful, Placed, Counted, Held, Owned, InboxStep, ChunkWritten, Completed, AbortedAll, Continues;
    var d, key, a := env.deviceOf(s.live[c]), s.live[c], Deliver(c, m, luck);
    StructureParts(env.sha256, s.inbox, s.conns);
    if m.id !in s.inbox.incoming || s.inbox.incoming[m.id].fromKey != key {
      IgnoredChunk(env, s, a);
    } else {
      var t := s.inbox.incoming[m.id];
      PlacedParts(s.inbox, s.conns, m.id);
      OwnerDevice(env, s, t);
      var (u, f, r) := ChunkWritten(t, s.inbox.folders, m.offset, m.data, luck.writes);
      var written := s.(inbox := WithTransfer(s.inbox, u, f));
      WrittenChunk(env, s, c, m, luck);
      if r.Err? {
        InboxStepLooksAtInbox(env, s, a, s.(inbox := AbortedAll(written.inbox, {m.id})),
                              IncomingAborted(SendRaw(written, d, FileError(m.id)), m.id));
      } else if u.received == u.size {
        CompletedIsInboxStep(env, s, a, written, d, u, luck.publishes);
      }
    }
  }

  lemma InboxStepLooksAtInbox(env: Env, before: State, a: Action, s: State, t: State)
    requires InboxStep(env, before, a, s) && t.inbox == s.inbox
    ensures InboxStep(env, before, a, t)
  {
  }

  lemma OwnerDevice(env: Env, s: State, t: Transfer)
    requires Base(env, s) && Owned(t, s.conns)
    ensures t.from == env.deviceOf(t.fromKey)
  {
  }

  lemma NoTransferOfUnauthorised(env: Env, s: State, c: ConnId, id: TransferId)
    requires Structured(env, s) && c in s.live && !s.conns[env.deviceOf(s.live[c])].authorised
    requires id in s.inbox.incoming
    ensures s.inbox.incoming[id].fromKey != s.live[c]
  {
    hide Counted, Held, Verified, Accounted, TrustOk;
    assert Owned(s.inbox.incoming[id], s.conns);
  }

  lemma HandlingIsInboxStep(env: Env, s: State, c: ConnId, m: Message, luck: DiskLuck)
    requires Structured(env, s) && c in s.live
    ensures InboxStep(env, s, Deliver(c, m, luck), Handled(env, s, env.deviceOf(s.live[c]), s.live[c], m, luck).0)
  {
    hide InboxStep, Base, Structure, Faithful, Placed, OfferReceived, ChunkReceived;
    var d, key, a := env.deviceOf(s.live[c]), s.live[c], Deliver(c, m, luck);
    LiveIsConnected(env, s, c);
    StructureParts(env.sha256, s.inbox, s.conns);
    if !m.FileOffer? && !m.FileChunk? {
      HandledKeeps(env, s, d, key, m, luck);
      KeptIsInboxStep(env, s, a, Handled(env, s, d, key, m, luck).0);
    } else if s.conns[d].authorised {
      if m.FileOffer? {
        OfferIsInboxStep(env, s, c, m, luck);
      } else {
        ChunkIsInboxStep(env, s, c, m, luck);
      }
    } else if m.FileOffer? {
      KeptNone(s.inbox);
      KeptIsInboxStep(env, s, a, s);
    } else {
      if m.id in s.inbox.incoming {
        NoTransferOfUnauthorised(env, s, c, m.id);
      }
      IgnoredChunk(env, s, a);
    }
  }

  lemma DeliverIsInboxStep(env: Env, s: State, c: ConnId, m: Message, luck: DiskLuck)
    requires Structured(env, s)
    ensures InboxStep(env, s, Deliver(c, m, luck), Delivered(env, s, c, m, luck))
  {
    hide InboxStep, Base, Structure, Faithful, Placed, Handled, TornDown, Kept;
    var a := Deliver(c, m, luck);
    if c !in s.live {
      StructureParts(env.sha256, s.inbox, s.conns);
      KeptNone(s.inbox);
      if m.FileChunk? {
        IgnoredChunk(env, s, a);
      } else {
        KeptIsInboxStep(env, s, a, s);
      }
    } else {
      var d := env.deviceOf(s.live[c]);
      var t := Handled(env, s, d, s.live[c], m, luck).0;
      HandlingIsInboxStep(env, s, c, m, luck);
      TearDownKeeps(t, c, d);
      KeptAfterInboxStep(env, s, a, t, TornDown(t, c, d));
    }
  }

  lemma CommandKeeps(env: Env, s: State, d: Device, on: bool)
    ensures Forgotten(env, s, d).inbox == s.inbox == BlockedSet(env, s, d, on).inbox
    ensures AutoAcceptSet(env, s, d, on).inbox == s.inbox == Closed(s, d).inbox
  {
    hide KeyFor;
  }

  lemma OpenKeeps(env: Env, s: State, key: Key, weDialed: bool, expected: Option<Key>)
    ensures Opened(env, s, key, weDialed, expected).inbox == s.inbox
    ensures forall d :: d in s.conns ==> d in Opened(env, s, key, weDialed, expected).conns
    ensures forall d :: d in s.conns ==> Opened(env, s, key, weDialed, expected).conns[d] == s.conns[d]
  {
  }

  lemma StepIsInboxStep(env: Env, s: State, a: Action)
    requires Structured(env, s)
    ensures InboxStep(env, s, a, Step(env, s, a))
  {
    hide InboxStep, Base, Structure, Faithful, Placed, Kept, Opened, Delivered, TornDown, PairingAnswered, OfferAnswered,
         TransferCancelled, Closed, Forgotten, BlockedSet, AutoAcceptSet, SendRaw;
    StructureParts(env.sha256, s.inbox, s.conns);
    KeptNone(s.inbox);
    match a
    case Deliver(c, m, luck) => DeliverIsInboxStep(env, s, c, m, luck);
    case Open(key, weDialed, expected) =>
      OpenKeeps(env, s, key, weDialed, expected);
      KeptIsInboxStep(env, s, a, Step(env, s, a));
    case Drop(c) =>
      if c in s.live { TearDownKeeps(s, c, env.deviceOf(s.live[c])); }
      KeptIsInboxStep(env, s, a, Step(env, s, a));
    case AnswerPairing(d, accept) =>
      FinalizeKeepsInbox(s, d);
      KeptIsInboxStep(env, s, a, Step(env, s, a));
    case AnswerOffer(id, accept, opens) =>
      AnswerKeeps(s, id, accept, opens);
      KeptIsInboxStep(env, s, a, Step(env, s, a));
    case CancelTransfer(id) =>
      CancelKeeps(s, id);
      KeptIsInboxStep(env, s, a, Step(env, s, a));
    case Send(d, m) =>
      SendingKeepsLinks(s, d, m);
      KeptIsInboxStep(env, s, a, Step(env, s, a));
    case Disconnect(d) =>
      CommandKeeps(env, s, d, false);
      KeptIsInboxStep(env, s, a, Step(env, s, a));
    case Forget(d) =>
      CommandKeeps(env, s, d, false);
      KeptIsInboxStep(env, s, a, Step(env, s, a));
    case SetBlocked(d, on) =>
      CommandKeeps(env, s, d, on);
      KeptIsInboxStep(env, s, a, Step(env, s, a));
    case SetAutoAccept(d, on) =>
      CommandKeeps(env, s, d, on);
      KeptIsInboxStep(env, s, a, Step(env, s, a));
    case _ => KeptIsInboxStep(env, s, a, Step(env, s, a));
  }

  // ---- the bytes along a run ------------------------------------------------------------------------

  /** All data that connection `c` sends for transfer `id`, in order. */
  function Gathered(actions: seq<Action>, c: ConnId, id: TransferId): Bytes
    decreases |actions|
  {
    if actions == [] then [] else
      var a := actions[|actions| - 1];
      Gathered(actions[..|actions| - 1], c, id)
      + if a.Deliver? && a.conn == c && a.message.FileChunk? && a.message.id == id then a.message.data else []
  }

  /** The transfer as it was offered. */
  function Terms(t: Transfer): Transfer {
    t.(accepted := false, received := 0, hashed := [])
  }

  /** Action `i`, on connection `c`, is the offer that transfer `t` was taken in with. */
  ghost predicate OfferedAt(env: Env, s: State, actions: seq<Action>, c: ConnId, t: Transfer, i: nat) {
    && i < |actions|
    && actions[i].Deliver? && actions[i].conn == c
    && NewOffer(env, After(env, s, actions[..i]), actions[i], Terms(t))
  }

  /** The bytes of `t` are all that connection `c` sent for it from the offer up to action `n`. */
  ghost predicate CameFrom(env: Env, s: State, actions: seq<Action>, t: Transfer, c: ConnId, i: nat, n: nat) {
    && i < n <= |actions|
    && OfferedAt(env, s, actions, c, t, i)
    && t.hashed == Gathered(actions[i + 1..n], c, t.id)
  }

  lemma CameFromGrows(env: Env, s: State, actions: seq<Action>, a: Action, t: Transfer, c: ConnId, i: nat, n: nat)
    requires CameFrom(env, s, actions, t, c, i, n)
    ensures CameFrom(env, s, actions + [a], t, c, i, n)
  {
    hide After, NewOffer;
    assert (actions + [a])[..i] == actions[..i];
    assert (actions + [a])[i + 1..n] == actions[i + 1..n];
  }

  ghost predicate Traced(env: Env, s: State, actions: seq<Action>, t: Transfer) {
    exists c: ConnId, i: nat ::
      CameFrom(env, s, actions, t, c, i, |actions|)
      && t.from in After(env, s, actions).conns && After(env, s, actions).conns[t.from].serial == c
  }

  ghost predicate PublishedFrom(env: Env, s: State, actions: seq<Action>, p: Published) {
    exists c: ConnId, i: nat, n: nat :: CameFrom(env, s, actions, p.transfer, c, i, n)
  }

  lemma NewIsTraced(env: Env, s: State, actions: seq<Action>, a: Action, u: Transfer)
    requires NewOffer(env, After(env, s, actions), a, u)
    requires u.from in After(env, s, actions + [a]).conns
    requires After(env, s, actions + [a]).conns[u.from].serial == After(env, s, actions).conns[u.from].serial
    ensures Traced(env, s, actions + [a], u)
  {
    hide After;
    var longer, n := actions + [a], |actions|;
    assert longer[..n] == actions && longer[n + 1..n + 1] == [];
    assert NewOffer(env, After(env, s, actions), a, Terms(u));
    assert CameFrom(env, s, longer, u, a.conn, n, n + 1);
  }

  /** A transfer that goes on gathers exactly what its own connection sends. */
  lemma ContinuedCameFrom(env: Env, s: State, actions: seq<Action>, a: Action, u: Transfer, c: ConnId, i: nat)
    requires Base(env, After(env, s, actions))
    requires Continues(After(env, s, actions), a, u)
    requires var t := After(env, s, actions).inbox.incoming[u.id];
             && t.id == u.id && CameFrom(env, s, actions, t, c, i, |actions|)
             && Owned(t, After(env, s, actions).conns) && After(env, s, actions).conns[t.from].serial == c
    ensures CameFrom(env, s, actions + [a], u, c, i, |actions| + 1)
  {
    hide After, NewOffer;
    var before := After(env, s, actions);
    var t, longer, n := before.inbox.incoming[u.id], actions + [a], |actions|;
    assert longer[..i] == actions[..i];
    assert longer[i + 1..n + 1] == actions[i + 1..n] + [a];
    assert (actions[i + 1..n] + [a])[..n - i - 1] == actions[i + 1..n];
    assert Terms(u) == Terms(t);
    OwnerIsOnlyConnection(env, before, t, a, u);
  }

  lemma OwnerIsOnlyConnection(env: Env, s: State, t: Transfer, a: Action, u: Transfer)
    requires Base(env, s) && Owned(t, s.conns) && u.fromKey == t.fromKey
    ensures DataFor(s, a, u) ==
      if a.Deliver? && a.conn == s.conns[t.from].serial && a.message.FileChunk? && a.message.id == u.id then a.message.data else []
  {
  }

  lemma OwnerStays(env: Env, s: State, a: Action, d: Device)
    requires Base(env, s) && d in s.conns && d in Step(env, s, a).conns
    ensures Step(env, s, a).conns[d].serial == s.conns[d].serial
  {
    if a.Open? {
      OpenKeeps(env, s, a.key, a.weDialed, a.expected);
    } else {
      StepIsExplained(env, s, a);
      StepKeepsInv(env, s, a);
      hide Step, TrustOk;
    }
  }

  ghost predicate AllTraced(env: Env, s: State, actions: seq<Action>) {
    var t := After(env, s, actions);
    && (forall id :: id in t.inbox.incoming ==> Traced(env, s, actions, t.inbox.incoming[id]))
    && (forall p :: p in t.inbox.published ==> PublishedFrom(env, s, actions, p))
  }

  lemma ContinuedIsFound(env: Env, s: State, actions: seq<Action>, a: Action, u: Transfer) returns (c: ConnId, i: nat)
    requires Structured(env, After(env, s, actions)) && AllTraced(env, s, actions)
    requires Continues(After(env, s, actions), a, u)
    ensures CameFrom(env, s, actions + [a], u, c, i, |actions| + 1)
    ensures u.from in After(env, s, actions).conns && After(env, s, actions).conns[u.from].serial == c
  {
    hide After, CameFrom, Base, Counted, Held, Verified, Accounted;
    var t := After(env, s, actions).inbox.incoming[u.id];
    assert Traced(env, s, actions, t);
    c, i :| CameFrom(env, s, actions, t, c, i, |actions|)
      && t.from in After(env, s, actions).conns && After(env, s, actions).conns[t.from].serial == c;
    ContinuedCameFrom(env, s, actions, a, u, c, i);
  }

  lemma NextIsTraced(env: Env, s: State, actions: seq<Action>, a: Action, u: Transfer)
    requires Structured(env, After(env, s, actions)) && AllTraced(env, s, actions)
    requires NewOffer(env, After(env, s, actions), a, u) || Continues(After(env, s, actions), a, u)
    requires u.from in Step(env, After(env, s, actions), a).conns
    ensures Traced(env, s, actions + [a], u)
  {
    hide After, CameFrom, Base, Structure, Faithful, Step, AllTraced, Continues;
    var before := After(env, s, actions);
    AfterOneMore(env, s, actions, a);
    if NewOffer(env, before, a, u) {
      OwnerStays(env, before, a, u.from);
      NewIsTraced(env, s, actions, a, u);
    } else {
      var c, i := ContinuedIsFound(env, s, actions, a, u);
      OwnerStays(env, before, a, u.from);
      assert |actions + [a]| == |actions| + 1;
    }
  }

  lemma NextIsPublishedFrom(env: Env, s: State, actions: seq<Action>, a: Action, p: Published)
    requires Structured(env, After(env, s, actions)) && AllTraced(env, s, actions)
    requires || p in After(env, s, actions).inbox.published
             || Continues(After(env, s, actions), a, p.transfer)
    ensures PublishedFrom(env, s, actions + [a], p)
  {
    hide After, CameFrom, Base, Structure, Faithful, Continues, Traced;
    if p in After(env, s, actions).inbox.published {
      assert PublishedFrom(env, s, actions, p);
      var c: ConnId, i: nat, n: nat :| CameFrom(env, s, actions, p.transfer, c, i, n);
      CameFromGrows(env, s, actions, a, p.transfer, c, i, n);
    } else {
      var c, i := ContinuedIsFound(env, s, actions, a, p.transfer);
    }
  }

  lemma {:induction false} EveryRunIsTraced(env: Env, s: State, actions: seq<Action>)
    requires Fresh(s)
    ensures AllTraced(env, s, actions)
    decreases |actions|
  {
    if actions != [] {
      var n := |actions| - 1;
      var shorter, a := actions[..n], actions[n];
      assert actions == shorter + [a];
      EveryRunIsTraced(env, s, shorter);
      EveryRunKeepsInv(env, s, shorter);
      EveryRunKeepsInv(env, s, actions);
      OneMoreIsTraced(env, s, shorter, a);
    }
  }

  lemma OneMoreIsTraced(env: Env, s: State, actions: seq<Action>, a: Action)
    requires Structured(env, After(env, s, actions)) && AllTraced(env, s, actions)
    requires Structured(env, After(env, s, actions + [a]))
    ensures AllTraced(env, s, actions + [a])
  {
    hide After, Base, Step, Traced, PublishedFrom, NewOffer, Continues, Counted, Held, Verified, Accounted;
    var before := After(env, s, actions);
    AfterOneMore(env, s, actions, a);
    var after := Step(env, before, a);
    StepIsInboxStep(env, before, a);
    forall id | id in after.inbox.incoming
      ensures Traced(env, s, actions + [a], after.inbox.incoming[id])
    {
      assert Owned(after.inbox.incoming[id], after.conns);
      NextIsTraced(env, s, actions, a, after.inbox.incoming[id]);
    }
    forall p | p in after.inbox.published
      ensures PublishedFrom(env, s, actions + [a], p)
    {
      NextIsPublishedFrom(env, s, actions, a, p);
    }
  }

  lemma OfferTerms(env: Env, before: State, a: Action, t: Transfer)
    requires NewOffer(env, before, a, Terms(t)) && Base(env, before)
    ensures a.message.FileOffer? && a.message.id == t.id && a.message.size == t.size
    ensures Lower(a.message.sha) == t.sha && Naming.Sanitized(a.message.name) == t.name
    ensures t.from in before.conns && before.conns[t.from].authorised
    ensures before.conns[t.from].serial == a.conn && before.conns[t.from].key == t.fromKey
  {
    hide Naming.Sanitized, Lower, TrustOk;
  }

  lemma ConsentedOffer(env: Env, s: State, actions: seq<Action>, d: Device)
    requires Fresh(s) && d in After(env, s, actions).conns && After(env, s, actions).conns[d].authorised
    ensures Entitled(env, s, actions, After(env, s, actions).conns[d].serial, After(env, s, actions).conns[d].key)
  {
    EveryRunIsConsented(env, s, actions);
  }

  /**
   * The verified bytes of a published file are the concatenation of every chunk that one connection
   * sent for it after offering it. That connection was entitled to offer, and the bytes have the
   * length and digest it offered. If the offers of the run were answered in time, the file on disk
   * is exactly those bytes.
   */
  lemma PublishedIsWhatItsPeerSent(env: Env, s: State, actions: seq<Action>, p: Published)
    returns (c: ConnId, i: nat, n: nat)
    requires Fresh(s)
    requires p in After(env, s, actions).inbox.published
    ensures i < n <= |actions| && actions[i].Deliver? && actions[i].conn == c && actions[i].message.FileOffer?
    ensures Entitled(env, s, actions[..i], c, p.transfer.fromKey)
    ensures p.transfer.hashed == Gathered(actions[i + 1..n], c, actions[i].message.id)
    ensures |p.transfer.hashed| == actions[i].message.size
    ensures env.sha256(p.transfer.hashed) == Lower(actions[i].message.sha)
    ensures p.transfer.name == Naming.Sanitized(actions[i].message.name)
    ensures Orderly(env, s, actions) ==> p.content == p.transfer.hashed
  {
    EveryRunKeepsInv(env, s, actions);
    EveryRunIsTraced(env, s, actions);
    hide After, Base, Traced, Entitled, Gathered, Orderly, Placed, Accounted, NewOffer, Naming.Sanitized, Lower, Fresh;
    assert Verified(env.sha256, p) && PublishedFrom(env, s, actions, p);
    c, i, n :| CameFrom(env, s, actions, p.transfer, c, i, n);
    EveryRunKeepsInv(env, s, actions[..i]);
    OfferTerms(env, After(env, s, actions[..i]), actions[i], p.transfer);
    ConsentedOffer(env, s, actions[..i], p.transfer.from);
  }
}
