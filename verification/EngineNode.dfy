/** The engine as code: handlers that update shared tables in place, each proved against its specification. */
module EngineNodes {
  import opened Prelude
  import opened Transfers
  import opened Engines

  class TrustStore {
    var devices: map<Key, Trusted>

    constructor ()
      ensures devices == map[]
    {
      devices := map[];
    }

    method ByDeviceId(env: Env, device: Device) returns (key: Option<Key>)
      ensures key == if StoredAs(env, devices, device) == {} then None else Some(env.first(StoredAs(env, devices, device)))
    {
      var found := set k | k in devices && env.deviceOf(k) == device;
      key := if found == {} then None else Some(env.first(found));
    }

    method Add(key: Key) returns (ok: bool)
      modifies this
      ensures ok <==> TrustAdded(old(devices), key).Some?
      ensures devices == if ok then TrustAdded(old(devices), key).value else old(devices)
    {
      if key in devices {
        devices := devices[key := devices[key].(blocked := false)];
        return true;
      }
      if |devices| >= MAX_TRUSTED_DEVICES {
        return false;
      }
      devices := devices[key := Trusted(false, false)];
      ok := true;
    }

    method Remove(key: Key)
      modifies this
      ensures devices == old(devices) - {key}
    {
      devices := devices - {key};
    }

    method SetBlocked(key: Key, blocked: bool)
      modifies this
      ensures devices == if key in old(devices) then old(devices)[key := old(devices)[key].(blocked := blocked)] else old(devices)
    {
      if key in devices {
        devices := devices[key := devices[key].(blocked := blocked)];
      }
    }

    method SetAutoAccept(key: Key, on: bool)
      modifies this
      ensures devices == if key in old(devices) then old(devices)[key := old(devices)[key].(autoAccept := on)] else old(devices)
    {
      if key in devices {
        devices := devices[key := devices[key].(autoAccept := on)];
      }
    }
  }

  class Engine {
    const env: Env
    const trust: TrustStore
    const disk: Disk
    var peers: map<Device, Key>
    var allowNew: bool
    var sizeLimit: nat
    var conns: map<Device, Conn>
    var live: map<ConnId, Key>
    var next: ConnId
    var incoming: map<TransferId, IncomingTransfer>
    var outgoing: map<TransferId, Outgoing>
    var sent: seq<Sent>
    var texts: seq<(Device, TransferId)>
    // Events for the front end, by transfer.
    var offered: multiset<TransferId>
    var finished: multiset<TransferId>
    var published: seq<Published>

    constructor (env: Env, trust: TrustStore, disk: Disk, allowNew: bool, sizeLimit: nat)
      ensures Valid() && this.env == env && this.trust == trust && this.disk == disk
      ensures trust.devices == old(trust.devices) && disk.Model() == old(disk.Model())
      ensures |trust.devices| <= MAX_TRUSTED_DEVICES && disk.parts == map[] ==> Fresh(Model())
    {
      this.env, this.trust, this.disk := env, trust, disk;
      this.allowNew, this.sizeLimit := allowNew, sizeLimit;
      peers, conns, live, next := map[], map[], map[], 0;
      incoming, outgoing := map[], map[];
      sent, texts := [], [];
      offered, finished, published := multiset{}, multiset{}, [];
    }

    /** Each transfer is filed under its own id, so no two entries share an object. */
    ghost predicate Valid()
      reads this
    {
      forall id :: id in incoming ==> incoming[id].id == id
    }

    ghost function TransferModel(): map<TransferId, Transfer>
      reads this`incoming, incoming.Values
    {
      map id | id in incoming :: incoming[id].Model()
    }

    ghost function Model(): State
      reads this, trust, disk, incoming.Values
    {
      State(trust.devices, peers, allowNew, sizeLimit, conns, live, next,
            Inbox(TransferModel(), disk.Model(), offered, finished, published),
            outgoing, sent, texts)
    }

    // ---- sending --------------------------------------------------------------------

    method SendRaw(device: Device, message: Message)
      modifies this`sent
      ensures Model() == Engines.SendRaw(old(Model()), device, message)
    {
      if device in conns && !conns[device].closed {
        sent := sent + [Sent(device, message)];
      }
    }

    method SendTo(device: Device, message: Message)
      modifies this`sent
      ensures Model() == Engines.SendTo(old(Model()), device, message)
    {
      if device !in conns || !conns[device].authorised {
        return;
      }
      SendRaw(device, message);
    }

    method Disconnect(device: Device)
      modifies this`conns
      ensures Model() == Closed(old(Model()), device)
    {
      if device in conns {
        conns := conns[device := conns[device].(closed := true)];
      }
    }

    // ---- pairing ----------------------------------------------------------------------

    method RespondPairing(device: Device, accept: bool)
      modifies this`conns, this`sent, trust
      ensures Model() == PairingAnswered(old(Model()), device, accept)
    {
      hide PairingFinalized, Engines.SendRaw;
      if device !in conns {
        return;
      }
      if !accept {
        SendRaw(device, PairReject);
        Disconnect(device);
        return;
      }
      conns := conns[device := conns[device].(localOk := true)];
      SendRaw(device, PairAccept);
      TryFinalizePairing(device);
    }

    method TryFinalizePairing(device: Device)
      modifies this`conns, trust
      ensures Model() == PairingFinalized(old(Model()), device)
    {
      var ready := device in conns && conns[device].localOk && conns[device].remoteOk && !conns[device].authorised;
      if !ready {
        return;
      }
      var ok := trust.Add(conns[device].key);
      if !ok {
        return;
      }
      conns := conns[device := conns[device].(authorised := true)];
    }

    // ---- incoming files -----------------------------------------------------------------

    method OnOffer(device: Device, key: Key, m: Message, luck: DiskLuck)
      requires Valid() && m.FileOffer?
      modifies this`incoming, this`offered, this`finished, this`sent, incoming.Values, disk
      ensures Valid() && Model() == OfferReceived(old(Model()), device, key, m, luck)
    {
      hide OfferAnswered, Engines.SendRaw, OfferTaken, Offered;
      var auto := key in trust.devices && trust.devices[key].autoAccept;
      assert TransferModel().Keys == incoming.Keys;
      if sizeLimit > 0 && m.size > sizeLimit {
        SendRaw(device, FileReject(m.id));
        return;
      }
      if |incoming| >= MAX_INCOMING_TRANSFERS || m.id in incoming {
        SendRaw(device, FileReject(m.id));
        return;
      }
      TakeOffer(device, key, m);
      if auto {
        RespondOffer(m.id, true, luck.opens);
      }
    }

    method TakeOffer(device: Device, key: Key, m: Message)
      requires Valid() && m.FileOffer?
      modifies this`incoming, this`offered
      ensures Valid() && fresh(incoming.Values - old(incoming.Values))
      ensures Model() == old(Model()).(inbox := OfferTaken(old(Model()).inbox, Offered(m.id, device, key, m.name, m.size, m.sha)))
    {
      var t := new IncomingTransfer(m.id, device, key, m.name, m.size, m.sha);
      incoming := incoming[m.id := t];
      offered := offered + multiset{m.id};
      assert TransferModel() == old(TransferModel())[m.id := t.Model()];
    }

    method RespondOffer(id: TransferId, accept: bool, works: bool)
      requires Valid()
      modifies this`incoming, this`finished, this`sent, incoming.Values, disk
      ensures Valid() && Model() == OfferAnswered(old(Model()), id, accept, works)
    {
      if id !in incoming {
        return;
      }
      var t := incoming[id];
      var device := t.from;
      if !accept {
        AbortIncoming(id);
        SendRaw(device, FileReject(id));
        return;
      }
      var ok := t.Accept(disk, works);
      assert TransferModel() == old(TransferModel())[id := t.Model()];
      if ok {
        SendRaw(device, FileAccept(id));
      } else {
        AbortIncoming(id);
        SendRaw(device, FileReject(id));
      }
    }

    method OnChunk(device: Device, key: Key, m: Message, luck: DiskLuck)
      requires Valid() && m.FileChunk?
      modifies this`incoming, this`finished, this`published, this`sent, incoming.Values, disk
      ensures Valid() && Model() == ChunkReceived(env, old(Model()), device, key, m, luck)
    {
      if m.id !in incoming {
        return;
      }
      var t := incoming[m.id];
      if t.from != device || t.fromKey != key {
        return;
      }
      hide ChunkWritten, WithTransfer, Completed, IncomingAborted, Engines.SendRaw;
      var r := Write(t, m, luck.writes);
      if r.Err? {
        SendRaw(device, FileError(m.id));
        AbortIncoming(m.id);
      } else if t.received == t.size {
        Complete(device, t, luck.publishes);
      }
    }

    method Write(t: IncomingTransfer, m: Message, works: bool) returns (r: Result<(), Error>)
      requires Valid() && m.FileChunk? && m.id in incoming && incoming[m.id] == t
      modifies t`received, t`hasher, disk`parts
      ensures var (u, f, out) := ChunkWritten(old(t.Model()), old(Model()).inbox.folders, m.offset, m.data, works);
              r == out && t.Model() == u && Model() == old(Model()).(inbox := WithTransfer(old(Model()).inbox, u, f))
    {
      hide ChunkWritten;
      r := t.WriteChunk(disk, m.offset, m.data, works);
      assert TransferModel() == old(TransferModel())[m.id := t.Model()];
    }

    /** Takes a transfer out of the table and reports it finished. */
    method TakeOut(id: TransferId)
      requires Valid()
      modifies this`incoming, this`finished
      ensures Valid() && incoming == old(incoming) - {id}
      ensures Model() == old(Model()).(inbox := Removed(old(Model()).inbox, id, old(Model()).inbox.folders))
    {
      incoming := incoming - {id};
      finished := finished + multiset{id};
      assert TransferModel() == old(TransferModel()) - {id};
    }

    method Complete(device: Device, t: IncomingTransfer, works: bool)
      requires Valid() && t.id in incoming && incoming[t.id] == t
      modifies this`incoming, this`finished, this`published, this`sent, disk
      ensures Valid() && Model() == Completed(env, old(Model()), device, old(t.Model()), works)
    {
      hide Finished, Engines.SendRaw;
      TakeOut(t.id);
      Publish(device, t, works);
    }

    method Publish(device: Device, t: IncomingTransfer, works: bool)
      modifies this`published, this`sent, disk
      ensures var s, m := old(Model()), old(t.Model());
              var (f, r) := Finished(m, s.inbox.folders, env.sha256, env.pid, works);
              var x := s.inbox.(folders := f);
              Model() == (match r
                case Ok(name) => s.(inbox := x.(published := x.published + [Published(m, name, s.inbox.folders.parts[t.id])]))
                case Err(_) => Engines.SendRaw(s.(inbox := x), device, FileError(t.id)))
    {
      hide Finished, Engines.SendRaw;
      OnlyPartsArePublished(t.Model(), disk.Model(), env.sha256, env.pid, works);
      var content := if t.id in disk.parts then disk.parts[t.id] else [];
      var r := t.Finish(disk, env.sha256, env.pid, works);
      if r.Ok? {
        published := published + [Published(Snapshot(t), r.value, content)];
      } else {
        SendRaw(device, FileError(t.id));
      }
    }

    function Snapshot(t: IncomingTransfer): (r: Transfer)
      reads t
      ensures r == t.Model()
    {
      Transfer(t.id, t.from, t.fromKey, t.name, t.size, t.expectedSha, t.received, t.accepted, t.hasher)
    }

    method AbortIncoming(id: TransferId)
      requires Valid()
      modifies this`incoming, this`finished, disk`parts
      ensures Valid() && Model() == IncomingAborted(old(Model()), id)
      ensures incoming == old(incoming) - {id}
    {
      if id !in incoming {
        return;
      }
      var t := incoming[id];
      TakeOut(id);
      t.Abort(disk);
      AbortedIsRemoved(old(Model()).inbox, id);
    }

    // ---- outgoing files -------------------------------------------------------------------

    method SignalOutgoing(id: TransferId, signal: Signal)
      modifies this`outgoing
      ensures Model() == Signalled(old(Model()), id, signal)
    {
      if id in outgoing {
        outgoing := outgoing[id := outgoing[id].(signals := outgoing[id].signals + [signal])];
      }
    }

    method CancelTransfer(id: TransferId)
      requires Valid()
      modifies this`incoming, this`outgoing, this`finished, this`sent, disk`parts
      ensures Valid() && Model() == TransferCancelled(old(Model()), id)
    {
      hide IncomingAborted, Engines.SendRaw, Engines.SendTo;
      assert TransferModel().Keys == incoming.Keys;
      if id in outgoing {
        var to := outgoing[id].to;
        outgoing := outgoing[id := outgoing[id].(cancelled := true)];
        SendTo(to, FileCancel(id));
        return;
      }
      if id in incoming {
        SendRaw(incoming[id].from, FileCancel(id));
        AbortIncoming(id);
      }
    }

    method FailTransfersFor(device: Device)
      requires Valid()
      modifies this`incoming, this`outgoing, this`finished, disk`parts
      ensures Valid() && Model() == TransfersFailed(old(Model()), device)
    {
      hide AbortedAll, SendsCancelled;
      AbortAllFrom(device);
      CancelSendsTo(device);
    }

    /** The order in which the table is walked does not show in the outcome. */
    method AbortAllFrom(device: Device)
      requires Valid()
      modifies this`incoming, this`finished, disk`parts
      ensures Valid() && Model() == old(Model()).(inbox := AbortedAll(old(Model()).inbox, From(old(Model()).inbox, device)))
    {
      hide AbortedAll, Model;
      ghost var before := Model();
      var ids := TransfersFrom(device);
      ghost var done: set<TransferId>, all := {}, ids;
      AbortingNoneIsNothing(before.inbox);
      while ids != {}
        invariant Valid() && ids == all - done && done <= all && ids <= incoming.Keys
        invariant Model() == before.(inbox := AbortedAll(before.inbox, done))
        decreases |ids|
      {
        var id :| id in ids;
        AbortAnother(before, done, id);
        ids, done := ids - {id}, done + {id};
      }
      assert done == all;
    }

    method TransfersFrom(device: Device) returns (ids: set<TransferId>)
      ensures ids == From(Model().inbox, device) && ids <= incoming.Keys
    {
      assert TransferModel().Keys == incoming.Keys;
      ids := set id | id in incoming && incoming[id].from == device;
    }

    method AbortAnother(ghost before: State, ghost done: set<TransferId>, id: TransferId)
      requires Valid() && Model() == before.(inbox := AbortedAll(before.inbox, done)) && id in incoming
      modifies this`incoming, this`finished, disk`parts
      ensures Valid() && Model() == before.(inbox := AbortedAll(before.inbox, done + {id}))
      ensures incoming == old(incoming) - {id}
    {
      hide AbortedAll;
      assert TransferModel().Keys == incoming.Keys;
      AbortStep(before, Model(), done, id);
      AbortIncoming(id);
    }

    method CancelSendsTo(device: Device)
      modifies this`outgoing
      ensures Model() == old(Model()).(outgoing := SendsCancelled(old(outgoing), device))
    {
      outgoing := map id | id in outgoing ::
        if outgoing[id].to == device then outgoing[id].(cancelled := true) else outgoing[id];
      assert outgoing == SendsCancelled(old(outgoing), device);
    }

    // ---- connections ------------------------------------------------------------------------

    /** Everything a peer can say comes through here; `false` ends the connection. */
    method OnMessage(device: Device, key: Key, m: Message, luck: DiskLuck) returns (ok: bool)
      requires Valid()
      modifies this, trust, disk, incoming.Values
      ensures Valid() && (Model(), ok) == Handled(env, old(Model()), device, key, m, luck)
    {
      hide Model, Engines.SendRaw, PeerAccepted, OfferReceived, ChunkReceived, IncomingAborted, DoneReceived, Signalled;
      var authorised := device in conns && conns[device].authorised;
      ModelConns();
      if !authorised && !m.AllowedBeforePairing() {
        return false;
      }
      ok := true;
      match m
      case Ping => SendRaw(device, Pong);
      case PairRequest => ok := device in conns;
      case PairAccept => OnPairAccept(device);
      case PairReject => ok := false;
      case Text(id) => OnText(device, id);
      case FileOffer(_, _, _, _) => OnOffer(device, key, m, luck);
      case FileAccept(id) => SignalOutgoing(id, Accept);
      case FileReject(id) => SignalOutgoing(id, Reject);
      case FileCancel(id) =>
        SignalOutgoing(id, Cancel);
        AbortIncoming(id);
      case FileError(id) =>
        SignalOutgoing(id, Cancel);
        AbortIncoming(id);
      case FileChunk(_, _, _) => OnChunk(device, key, m, luck);
      case FileDone(id) => OnDone(id);
      case _ =>
    }

    lemma ModelConns()
      ensures Model().conns == conns && Model().live == live
    {
    }

    method OnPairAccept(device: Device)
      modifies this`conns, trust
      ensures Model() == PeerAccepted(old(Model()), device)
    {
      hide PairingFinalized;
      if device in conns {
        conns := conns[device := conns[device].(remoteOk := true)];
      } else {
        NothingToFinalize(Model(), device);
      }
      TryFinalizePairing(device);
    }

    method OnText(device: Device, id: TransferId)
      modifies this`texts, this`sent
      ensures Model() == Engines.SendRaw(old(Model()).(texts := old(Model()).texts + [(device, id)]), device, TextAck(id))
    {
      texts := texts + [(device, id)];
      SendRaw(device, TextAck(id));
    }

    method OnDone(id: TransferId)
      requires Valid()
      modifies this`incoming, this`finished, disk`parts
      ensures Valid() && Model() == DoneReceived(old(Model()), id)
    {
      hide IncomingAborted;
      assert TransferModel().Keys == incoming.Keys;
      var stale := id in incoming && incoming[id].received != incoming[id].size;
      if stale {
        AbortIncoming(id);
      }
    }

    /** From the end of the handshake to the start of the receive loop. */
    method OpenConnection(key: Key, weDialed: bool, expectKey: Option<Key>)
      modifies this`conns, this`live, this`next, this`sent
      ensures Model() == Opened(env, old(Model()), key, weDialed, expectKey)
    {
      hide Engines.SendRaw;
      var device := env.deviceOf(key);
      if expectKey.Some? && expectKey.value != key {
        return;
      }
      var blocked := key in trust.devices && trust.devices[key].blocked;
      var authorised := key in trust.devices && !blocked;
      if blocked {
        return;
      }
      if !authorised && !allowNew {
        return;
      }
      if device in conns {
        return;
      }
      if |conns| >= MAX_CONNECTIONS {
        return;
      }
      Enter(device, key, authorised);
      SendRaw(device, Hello);
      if !authorised && weDialed {
        SendRaw(device, PairRequest);
      }
    }

    method Enter(device: Device, key: Key, authorised: bool)
      modifies this`conns, this`live, this`next
      ensures Model() == old(Model()).(
        conns := old(conns)[device := Conn(old(next), key, authorised, false, false, false)],
        live := old(live)[old(next) := key],
        next := old(next) + 1)
    {
      conns := conns[device := Conn(next, key, authorised, false, false, false)];
      live := live[next := key];
      next := next + 1;
    }

    /** One turn of the receive loop of connection `c`. */
    method Receive(c: ConnId, m: Message, luck: DiskLuck)
      requires Valid()
      modifies this, trust, disk, incoming.Values
      ensures Valid() && Model() == Delivered(env, old(Model()), c, m, luck)
    {
      hide Handled, TornDown, Model;
      ModelConns();
      if c !in live {
        return;
      }
      var key := live[c];
      var device := env.deviceOf(key);
      var ok := OnMessage(device, key, m, luck);
      if !ok {
        TearDown(c, device);
      }
    }

    method TearDown(c: ConnId, device: Device)
      requires Valid()
      modifies this`conns, this`live, this`incoming, this`outgoing, this`finished, disk`parts
      ensures Valid() && Model() == TornDown(old(Model()), c, device)
    {
      hide TransfersFailed;
      conns := conns - {device};
      live := live - {c};
      FailTransfersFor(device);
    }

    // ---- user commands ------------------------------------------------------------------------

    method LookupKey(device: Device) returns (key: Option<Key>)
      ensures key == KeyFor(env, Model(), device)
    {
      if device in conns {
        return Some(conns[device].key);
      }
      if device in peers {
        return Some(peers[device]);
      }
      key := trust.ByDeviceId(env, device);
    }

    method Forget(device: Device)
      modifies this`conns, trust
      ensures Model() == Forgotten(env, old(Model()), device)
    {
      hide Closed, KeyFor;
      var key := LookupKey(device);
      if key.Some? {
        trust.Remove(key.value);
        Disconnect(device);
      }
    }

    method SetBlocked(device: Device, blocked: bool)
      modifies this`conns, trust
      ensures Model() == BlockedSet(env, old(Model()), device, blocked)
    {
      hide Closed, KeyFor;
      var key := LookupKey(device);
      if key.Some? {
        trust.SetBlocked(key.value, blocked);
        if blocked {
          Disconnect(device);
        }
      }
    }

    method SetAutoAccept(device: Device, on: bool)
      modifies trust
      ensures Model() == AutoAcceptSet(env, old(Model()), device, on)
    {
      hide KeyFor;
      var key := LookupKey(device);
      if key.Some? {
        trust.SetAutoAccept(key.value, on);
      }
    }

    method OnBeacon(key: Key)
      modifies this`peers
      ensures Model() == BeaconHeard(env, old(Model()), key)
    {
      var device := env.deviceOf(key);
      if |peers| >= MAX_PEERS && device !in peers {
        return;
      }
      peers := peers[device := key];
    }
  }

  lemma AbortedIsRemoved(x: Inbox, id: TransferId)
    requires id in x.incoming && x.incoming[id].id == id
    ensures AbortedAll(x, {id}) == Removed(x, id, Aborted(x.incoming[id], x.folders))
  {
    assert multiset({id}) == multiset{id};
    assert x.incoming[id].accepted ==> (set i | i in {id} && i in x.incoming && x.incoming[i].accepted) == {id};
    assert !x.incoming[id].accepted ==> (set i | i in {id} && i in x.incoming && x.incoming[i].accepted) == {};
    assert x.folders.parts - {} == x.folders.parts;
  }

  lemma NothingToFinalize(s: State, d: Device)
    requires d !in s.conns
    ensures PairingFinalized(s, d) == s
  {
  }

  lemma OpenedAreGone(x: Inbox, gone: set<TransferId>)
    ensures (set id | id in gone && id in x.incoming && x.incoming[id].accepted) <= gone
  {
  }

  lemma AbortingNoneIsNothing(x: Inbox)
    ensures AbortedAll(x, {}) == x
  {
    OpenedAreGone(x, {});
    assert x.incoming - {} == x.incoming && x.folders.parts - {} == x.folders.parts;
  }

  lemma AbortStep(before: State, s: State, done: set<TransferId>, id: TransferId)
    requires s == before.(inbox := AbortedAll(before.inbox, done)) && id in s.inbox.incoming
    ensures IncomingAborted(s, id) == before.(inbox := AbortedAll(before.inbox, done + {id}))
  {
    AbortingOneMore(before.inbox, done, id);
  }

  lemma AbortingOneMore(x: Inbox, done: set<TransferId>, id: TransferId)
    requires id in x.incoming && id !in done
    ensures AbortedAll(AbortedAll(x, done), {id}) == AbortedAll(x, done + {id})
  {
    var y, z, w := AbortedAll(x, done), AbortedAll(AbortedAll(x, done), {id}), AbortedAll(x, done + {id});
    assert z.incoming == w.incoming;
    assert z.folders.parts == w.folders.parts;
    assert multiset(done + {id}) == multiset(done) + multiset({id});
  }
}
