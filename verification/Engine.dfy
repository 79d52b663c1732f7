/** The desktop engine: pairing, authorisation, the connection table and incoming transfers. */
module Engines {
  import opened Prelude
  import opened Transfers

  type ConnId(==) = nat

  const MAX_CONNECTIONS: nat := 16
  const MAX_INCOMING_TRANSFERS: nat := 16
  const MAX_TRUSTED_DEVICES: nat := 256
  const MAX_PEERS: nat := 128

  datatype Message =
    | Hello
    | Ping
    | Pong
    | PairRequest
    | PairAccept
    | PairReject
    | Text(id: TransferId)
    | TextAck(id: TransferId)
    | FileOffer(id: TransferId, name: string, size: nat, sha: string)
    | FileAccept(id: TransferId)
    | FileReject(id: TransferId)
    | FileChunk(id: TransferId, offset: nat, data: Bytes)
    | FileDone(id: TransferId)
    | FileError(id: TransferId)
    | FileCancel(id: TransferId)
  {
    predicate AllowedBeforePairing() {
      Hello? || Ping? || Pong? || PairRequest? || PairAccept? || PairReject?
    }
  }

  /** What the engine computes with but does not decide. `first` picks a key in the store's own order. */
  datatype Env = Env(deviceOf: Key -> Device, sha256: Digest, pid: nat, first: set<Key> -> Key)

  /** Which disk operations succeed while one message is handled. */
  datatype DiskLuck = DiskLuck(opens: bool, writes: bool, publishes: bool)

  datatype Trusted = Trusted(blocked: bool, autoAccept: bool)

  datatype Conn = Conn(
    serial: ConnId,
    key: Key,
    authorised: bool,
    localOk: bool,
    remoteOk: bool,
    closed: bool)

  datatype Signal = Accept | Reject | Cancel

  datatype Outgoing = Outgoing(to: Device, signals: seq<Signal>, cancelled: bool)

  datatype Sent = Sent(to: Device, message: Message)

  datatype Published = Published(transfer: Transfer, name: string, content: Bytes)

  /** Incoming transfers, their files, and how often each id was taken in and reported finished. */
  datatype Inbox = Inbox(
    incoming: map<TransferId, Transfer>,
    folders: Folders,
    offered: multiset<TransferId>,
    finished: multiset<TransferId>,
    published: seq<Published>)

  /**
   * `live` holds the key of every connection whose receive loop is still running; `peers` the keys
   * announced on the network, by device.
   */
  datatype State = State(
    trust: map<Key, Trusted>,
    peers: map<Device, Key>,
    allowNew: bool,
    sizeLimit: nat,
    conns: map<Device, Conn>,
    live: map<ConnId, Key>,
    next: ConnId,
    inbox: Inbox,
    outgoing: map<TransferId, Outgoing>,
    sent: seq<Sent>,
    texts: seq<(Device, TransferId)>)

  // ---- sending ------------------------------------------------------------------

  function SendRaw(s: State, d: Device, m: Message): State {
    if d in s.conns && !s.conns[d].closed then s.(sent := s.sent + [Sent(d, m)]) else s
  }

  function SendTo(s: State, d: Device, m: Message): State {
    if d in s.conns && s.conns[d].authorised then SendRaw(s, d, m) else s
  }

  function Closed(s: State, d: Device): State {
    if d in s.conns then s.(conns := s.conns[d := s.conns[d].(closed := true)]) else s
  }

  // ---- pairing -------------------------------------------------------------------

  /** Adding unblocks a stored device; a new one needs room. */
  function TrustAdded(trust: map<Key, Trusted>, key: Key): Option<map<Key, Trusted>> {
    if key in trust then Some(trust[key := trust[key].(blocked := false)])
    else if |trust| >= MAX_TRUSTED_DEVICES then None
    else Some(trust[key := Trusted(false, false)])
  }

  function PairingFinalized(s: State, d: Device): State {
    if d !in s.conns || !s.conns[d].localOk || !s.conns[d].remoteOk || s.conns[d].authorised then s
    else match TrustAdded(s.trust, s.conns[d].key)
      case None => s
      case Some(trust) => s.(trust := trust, conns := s.conns[d := s.conns[d].(authorised := true)])
  }

  function PairingAnswered(s: State, d: Device, accept: bool): State {
    if d !in s.conns then s
    else if !accept then Closed(SendRaw(s, d, PairReject), d)
    else
      var agreed := s.(conns := s.conns[d := s.conns[d].(localOk := true)]);
      PairingFinalized(SendRaw(agreed, d, PairAccept), d)
  }

  function PeerAccepted(s: State, d: Device): State {
    if d !in s.conns then s
    else PairingFinalized(s.(conns := s.conns[d := s.conns[d].(remoteOk := true)]), d)
  }

  // ---- incoming files ---------------------------------------------------------------

  /** Drop a set of transfers, removing the part files they had opened. */
  function AbortedAll(x: Inbox, gone: set<TransferId>): Inbox {
    var withFile := set id | id in gone && id in x.incoming && x.incoming[id].accepted;
    x.(incoming := x.incoming - gone,
       folders := x.folders.(parts := x.folders.parts - withFile),
       finished := x.finished + multiset(gone))
  }

  function IncomingAborted(s: State, id: TransferId): State {
    if id in s.inbox.incoming then s.(inbox := AbortedAll(s.inbox, {id})) else s
  }

  function WithTransfer(x: Inbox, t: Transfer, f: Folders): Inbox {
    x.(incoming := x.incoming[t.id := t], folders := f)
  }

  function OfferAnswered(s: State, id: TransferId, accept: bool, works: bool): State {
    if id !in s.inbox.incoming then s else
      var t := s.inbox.incoming[id];
      if !accept then SendRaw(IncomingAborted(s, id), t.from, FileReject(id)) else
        var (u, f, ok) := Accepted(t, s.inbox.folders, works);
        var begun := s.(inbox := WithTransfer(s.inbox, u, f));
        if ok then SendRaw(begun, t.from, FileAccept(id))
        else SendRaw(IncomingAborted(begun, id), t.from, FileReject(id))
  }

  function OfferTaken(x: Inbox, t: Transfer): Inbox {
    x.(incoming := x.incoming[t.id := t], offered := x.offered + multiset{t.id})
  }

  function OfferReceived(s: State, d: Device, key: Key, m: Message, luck: DiskLuck): State
    requires m.FileOffer?
  {
    if 0 < s.sizeLimit < m.size then SendRaw(s, d, FileReject(m.id))
    else if |s.inbox.incoming| >= MAX_INCOMING_TRANSFERS || m.id in s.inbox.incoming then SendRaw(s, d, FileReject(m.id))
    else
      var taken := s.(inbox := OfferTaken(s.inbox, Offered(m.id, d, key, m.name, m.size, m.sha)));
      if key in s.trust && s.trust[key].autoAccept then OfferAnswered(taken, m.id, true, luck.opens) else taken
  }

  function Removed(x: Inbox, id: TransferId, f: Folders): Inbox {
    x.(incoming := x.incoming - {id}, folders := f, finished := x.finished + multiset{id})
  }

  function Completed(env: Env, s: State, d: Device, t: Transfer, works: bool): State {
    var (f, r) := Finished(t, s.inbox.folders, env.sha256, env.pid, works);
    var x := Removed(s.inbox, t.id, f);
    match r
    case Ok(name) => s.(inbox := x.(published := x.published + [Published(t, name, s.inbox.folders.parts[t.id])]))
    case Err(_) => SendRaw(s.(inbox := x), d, FileError(t.id))
  }

  function ChunkReceived(env: Env, s: State, d: Device, key: Key, m: Message, luck: DiskLuck): State
    requires m.FileChunk?
  {
    if m.id !in s.inbox.incoming then s else
      var t := s.inbox.incoming[m.id];
      if t.from != d || t.fromKey != key then s else
        var (u, f, r) := ChunkWritten(t, s.inbox.folders, m.offset, m.data, luck.writes);
        var written := s.(inbox := WithTransfer(s.inbox, u, f));
        if r.Err? then IncomingAborted(SendRaw(written, d, FileError(m.id)), m.id)
        else if u.received == u.size then Completed(env, written, d, u, luck.publishes)
        else written
  }

  function DoneReceived(s: State, id: TransferId): State {
    if id in s.inbox.incoming && s.inbox.incoming[id].received != s.inbox.incoming[id].size
    then IncomingAborted(s, id) else s
  }

  // ---- outgoing files -----------------------------------------------------------------

  function Signalled(s: State, id: TransferId, signal: Signal): State {
    if id in s.outgoing then
      s.(outgoing := s.outgoing[id := s.outgoing[id].(signals := s.outgoing[id].signals + [signal])])
    else s
  }

  function TransferCancelled(s: State, id: TransferId): State {
    if id in s.outgoing then
      SendTo(s.(outgoing := s.outgoing[id := s.outgoing[id].(cancelled := true)]), s.outgoing[id].to, FileCancel(id))
    else if id in s.inbox.incoming then
      IncomingAborted(SendRaw(s, s.inbox.incoming[id].from, FileCancel(id)), id)
    else s
  }

  // ---- connections ----------------------------------------------------------------------

  function From(x: Inbox, d: Device): set<TransferId> {
    set id | id in x.incoming && x.incoming[id].from == d
  }

  function SendsCancelled(outgoing: map<TransferId, Outgoing>, d: Device): map<TransferId, Outgoing> {
    map id | id in outgoing :: if outgoing[id].to == d then outgoing[id].(cancelled := true) else outgoing[id]
  }

  function TransfersFailed(s: State, d: Device): State {
    s.(inbox := AbortedAll(s.inbox, From(s.inbox, d)), outgoing := SendsCancelled(s.outgoing, d))
  }

  /** The receive loop of connection `c`, which serves device `d`, has ended. */
  function TornDown(s: State, c: ConnId, d: Device): State {
    TransfersFailed(s.(conns := s.conns - {d}, live := s.live - {c}), d)
  }

  /** A handshake with `key` has completed. */
  function Opened(env: Env, s: State, key: Key, weDialed: bool, expected: Option<Key>): State {
    var d := env.deviceOf(key);
    var stored := key in s.trust;
    var authorised := stored && !s.trust[key].blocked;
    if expected.Some? && expected.value != key then s
    else if stored && !authorised then s
    else if !authorised && !s.allowNew then s
    else if d in s.conns || |s.conns| >= MAX_CONNECTIONS then s
    else
      var entered := s.(
        conns := s.conns[d := Conn(s.next, key, authorised, false, false, false)],
        live := s.live[s.next := key],
        next := s.next + 1);
      var greeted := SendRaw(entered, d, Hello);
      if !authorised && weDialed then SendRaw(greeted, d, PairRequest) else greeted
  }

  /** The single choke point for everything a peer can say; `false` ends the connection. */
  function Handled(env: Env, s: State, d: Device, key: Key, m: Message, luck: DiskLuck): (State, bool) {
    var authorised := d in s.conns && s.conns[d].authorised;
    if !authorised && !m.AllowedBeforePairing() then (s, false) else
      match m
      case Ping => (SendRaw(s, d, Pong), true)
      case Pong => (s, true)
      case Hello => (s, true)
      case PairRequest => (s, d in s.conns)
      case PairAccept => (PeerAccepted(s, d), true)
      case PairReject => (s, false)
      case Text(id) => (SendRaw(s.(texts := s.texts + [(d, id)]), d, TextAck(id)), true)
      case TextAck(_) => (s, true)
      case FileOffer(_, _, _, _) => (OfferReceived(s, d, key, m, luck), true)
      case FileAccept(id) => (Signalled(s, id, Accept), true)
      case FileReject(id) => (Signalled(s, id, Reject), true)
      case FileCancel(id) => (IncomingAborted(Signalled(s, id, Cancel), id), true)
      case FileError(id) => (IncomingAborted(Signalled(s, id, Cancel), id), true)
      case FileChunk(_, _, _) => (ChunkReceived(env, s, d, key, m, luck), true)
      case FileDone(id) => (DoneReceived(s, id), true)
  }

  function Delivered(env: Env, s: State, c: ConnId, m: Message, luck: DiskLuck): State {
    if c !in s.live then s else
      var d := env.deviceOf(s.live[c]);
      var (after, ok) := Handled(env, s, d, s.live[c], m, luck);
      if ok then after else TornDown(after, c, d)
  }

  // ---- user commands ---------------------------------------------------------------------

  function StoredAs(env: Env, trust: map<Key, Trusted>, d: Device): set<Key> {
    set k | k in trust && env.deviceOf(k) == d
  }

  /** A device's key: proved by its connection, else announced by it, else stored for it. */
  function KeyFor(env: Env, s: State, d: Device): Option<Key> {
    if d in s.conns then Some(s.conns[d].key)
    else if d in s.peers then Some(s.peers[d])
    else if StoredAs(env, s.trust, d) != {} then Some(env.first(StoredAs(env, s.trust, d)))
    else None
  }

  function Forgotten(env: Env, s: State, d: Device): State {
    match KeyFor(env, s, d)
    case None => s
    case Some(key) => Closed(s.(trust := s.trust - {key}), d)
  }

  function BlockedSet(env: Env, s: State, d: Device, blocked: bool): State {
    match KeyFor(env, s, d)
    case None => s
    case Some(key) =>
      var marked := if key in s.trust then s.(trust := s.trust[key := s.trust[key].(blocked := blocked)]) else s;
      if blocked then Closed(marked, d) else marked
  }

  function AutoAcceptSet(env: Env, s: State, d: Device, on: bool): State {
    match KeyFor(env, s, d)
    case None => s
    case Some(key) => if key in s.trust then s.(trust := s.trust[key := s.trust[key].(autoAccept := on)]) else s
  }

  /** A beacon with `key` has been heard: known devices are refreshed, new ones need room. */
  function BeaconHeard(env: Env, s: State, key: Key): State {
    var d := env.deviceOf(key);
    if |s.peers| >= MAX_PEERS && d !in s.peers then s else s.(peers := s.peers[d := key])
  }

  // ---- runs ----------------------------------------------------------------------------------

  /** Everything the network, the user and the send threads can do. Timeouts are `Disconnect`s. */
  datatype Action =
    | Open(key: Key, weDialed: bool, expected: Option<Key>)
    | Deliver(conn: ConnId, message: Message, luck: DiskLuck)
    | Drop(conn: ConnId)
    | AnswerPairing(device: Device, accept: bool)
    | AnswerOffer(transfer: TransferId, accept: bool, opens: bool)
    | CancelTransfer(transfer: TransferId)
    | Send(device: Device, message: Message)
    | StartSend(transfer: TransferId, device: Device)
    | EndSend(transfer: TransferId)
    | Disconnect(device: Device)
    | Forget(device: Device)
    | SetBlocked(device: Device, on: bool)
    | SetAutoAccept(device: Device, on: bool)
    | Beacon(key: Key)
    | ExpirePeers(gone: set<Device>)
    | Configure(allowNew: bool, sizeLimit: nat)

  function Step(env: Env, s: State, a: Action): State {
    match a
    case Open(key, weDialed, expected) => Opened(env, s, key, weDialed, expected)
    case Deliver(c, m, luck) => Delivered(env, s, c, m, luck)
    case Drop(c) => if c in s.live then TornDown(s, c, env.deviceOf(s.live[c])) else s
    case AnswerPairing(d, accept) => PairingAnswered(s, d, accept)
    case AnswerOffer(id, accept, opens) => OfferAnswered(s, id, accept, opens)
    case CancelTransfer(id) => TransferCancelled(s, id)
    case Send(d, m) => SendTo(s, d, m)
    case StartSend(id, d) => s.(outgoing := s.outgoing[id := Outgoing(d, [], false)])
    case EndSend(id) => s.(outgoing := s.outgoing - {id})
    case Disconnect(d) => Closed(s, d)
    case Forget(d) => Forgotten(env, s, d)
    case SetBlocked(d, on) => BlockedSet(env, s, d, on)
    case SetAutoAccept(d, on) => AutoAcceptSet(env, s, d, on)
    case Beacon(key) => BeaconHeard(env, s, key)
    case ExpirePeers(gone) => s.(peers := s.peers - gone)
    case Configure(allowNew, sizeLimit) => s.(allowNew := allowNew, sizeLimit := sizeLimit)
  }

  function After(env: Env, s: State, actions: seq<Action>): State
    decreases |actions|
  {
    if actions == [] then s
    else Step(env, After(env, s, actions[..|actions| - 1]), actions[|actions| - 1])
  }

  /** A node that has just started with the stored devices `trust`. */
  predicate Fresh(s: State) {
    && |s.trust| <= MAX_TRUSTED_DEVICES
    && s.conns == map[] && s.live == map[] && s.peers == map[]
    && s.inbox.incoming == map[] && s.inbox.folders.parts == map[]
    && s.inbox.offered == multiset{} && s.inbox.finished == multiset{} && s.inbox.published == []
  }
}
