/** What every handler of the engine keeps, and hence what holds in every run. */
module EngineInvariant {
  import opened Prelude
  import opened Transfers
  import opened Engines

  // ---- the invariant --------------------------------------------------------------

  /** Connections and running receive loops correspond one to one, by device. */
  ghost predicate LinksOk(env: Env, conns: map<Device, Conn>, live: map<ConnId, Key>, next: ConnId) {
    && |conns| <= MAX_CONNECTIONS
    && (forall d :: d in conns ==>
         && env.deviceOf(conns[d].key) == d
         && conns[d].serial in live
         && live[conns[d].serial] == conns[d].key)
    && (forall c :: c in live ==>
         && c < next
         && env.deviceOf(live[c]) in conns
         && conns[env.deviceOf(live[c])].serial == c)
  }

  /** Only unstored devices wait for pairing. */
  ghost predicate TrustOk(trust: map<Key, Trusted>, conns: map<Device, Conn>) {
    && |trust| <= MAX_TRUSTED_DEVICES
    && forall d :: d in conns && !conns[d].authorised ==> conns[d].key !in trust
  }

  ghost predicate Owned(t: Transfer, conns: map<Device, Conn>) {
    t.from in conns && conns[t.from].key == t.fromKey && conns[t.from].authorised
  }

  /** Every transfer has a live authorised owner, a counter that follows its hash, and a part file once accepted. */
  ghost predicate Placed(x: Inbox, conns: map<Device, Conn>) {
    forall id :: id in x.incoming ==>
      && x.incoming[id].id == id
      && Counted(x.incoming[id]) && Held(x.incoming[id], x.folders) && Owned(x.incoming[id], conns)
  }

  /** Whatever was taken in has been reported finished once, or is still here. */
  ghost predicate Accounted(x: Inbox) {
    x.offered == x.finished + multiset(x.incoming.Keys)
  }

  /** What was hashed on the way in has the offered length and digest. */
  ghost predicate Verified(sha256: Digest, p: Published) {
    |p.transfer.hashed| == p.transfer.size && sha256(p.transfer.hashed) == p.transfer.sha
  }

  /** The part of the invariant that holds in every run. */
  ghost predicate Structure(sha256: Digest, x: Inbox, conns: map<Device, Conn>) {
    && |x.incoming| <= MAX_INCOMING_TRANSFERS
    && Placed(x, conns)
    && x.folders.parts.Keys <= x.incoming.Keys
    && Accounted(x)
    && forall p :: p in x.published ==> Verified(sha256, p)
  }

  /** Part files and published files are what was hashed; this needs offers to be answered in time. */
  ghost predicate Faithful(x: Inbox) {
    && (forall id :: id in x.incoming ==> Matches(x.incoming[id], x.folders))
    && forall p :: p in x.published ==> p.content == p.transfer.hashed
  }

  ghost predicate Base(env: Env, s: State) {
    && LinksOk(env, s.conns, s.live, s.next)
    && TrustOk(s.trust, s.conns)
  }

  ghost predicate Structured(env: Env, s: State) {
    Base(env, s) && Structure(env.sha256, s.inbox, s.conns)
  }

  ghost predicate Inv(env: Env, s: State) {
    Structured(env, s) && Faithful(s.inbox)
  }

  lemma FreshInv(env: Env, s: State)
    requires Fresh(s)
    ensures Inv(env, s)
  {
  }

  // ---- moves of the inbox ------------------------------------------------------------

  /** The same connections, possibly with more authority. */
  ghost predicate Grown(conns: map<Device, Conn>, later: map<Device, Conn>) {
    forall d :: d in conns ==>
      d in later && later[d].key == conns[d].key && (conns[d].authorised ==> later[d].authorised)
  }

  lemma GrowingKeepsStructure(sha256: Digest, x: Inbox, conns: map<Device, Conn>, later: map<Device, Conn>)
    requires Grown(conns, later)
    ensures Structure(sha256, x, conns) ==> Structure(sha256, x, later)
  {
    hide Counted, Held, Verified, Accounted;
  }

  lemma SplitMultiset<T>(whole: set<T>, part: set<T>)
    requires part <= whole
    ensures multiset(whole) == multiset(whole - part) + multiset(part)
    ensures |whole - part| <= |whole|
  {
    SubsetCardinality(whole - part, whole);
  }

  lemma StructureParts(sha256: Digest, x: Inbox, conns: map<Device, Conn>)
    requires Structure(sha256, x, conns)
    ensures Placed(x, conns) && x.folders.parts.Keys <= x.incoming.Keys
  {
  }

  lemma PlacedParts(x: Inbox, conns: map<Device, Conn>, id: TransferId)
    requires Placed(x, conns) && id in x.incoming
    ensures x.incoming[id].id == id && (x.incoming[id].accepted <==> id in x.folders.parts)
    ensures Counted(x.incoming[id]) && Held(x.incoming[id], x.folders) && Owned(x.incoming[id], conns)
  {
  }

  lemma AbortingKeepsPlaced(x: Inbox, conns: map<Device, Conn>, later: map<Device, Conn>, gone: set<TransferId>)
    requires Placed(x, conns)
    requires forall id :: id in x.incoming && id !in gone ==> Owned(x.incoming[id], later)
    ensures Placed(AbortedAll(x, gone), later)
  {
    hide Owned, Counted;
  }

  lemma AbortingKeepsParts(x: Inbox, conns: map<Device, Conn>, gone: set<TransferId>)
    requires Placed(x, conns) && x.folders.parts.Keys <= x.incoming.Keys
    ensures AbortedAll(x, gone).folders.parts.Keys <= AbortedAll(x, gone).incoming.Keys
  {
    forall id | id in AbortedAll(x, gone).folders.parts
      ensures id in AbortedAll(x, gone).incoming
    {
      PlacedParts(x, conns, id);
    }
  }

  lemma AbortingIsAccounted(x: Inbox, gone: set<TransferId>)
    requires Accounted(x) && gone <= x.incoming.Keys
    ensures Accounted(AbortedAll(x, gone))
  {
    SplitMultiset(x.incoming.Keys, gone);
    assert AbortedAll(x, gone).incoming.Keys == x.incoming.Keys - gone;
  }

  lemma AbortingKeepsStructure(sha256: Digest, x: Inbox, conns: map<Device, Conn>, later: map<Device, Conn>, gone: set<TransferId>)
    requires Structure(sha256, x, conns) && gone <= x.incoming.Keys
    requires forall id :: id in x.incoming && id !in gone ==> Owned(x.incoming[id], later)
    ensures Structure(sha256, AbortedAll(x, gone), later)
  {
    hide Placed, Owned, Verified, Accounted;
    AbortingKeepsPlaced(x, conns, later, gone);
    AbortingKeepsParts(x, conns, gone);
    AbortingIsAccounted(x, gone);
    SplitMultiset(x.incoming.Keys, gone);
    assert AbortedAll(x, gone).incoming.Keys == x.incoming.Keys - gone;
  }

  lemma AbortingKeepsFaithful(x: Inbox, gone: set<TransferId>)
    requires Faithful(x)
    ensures Faithful(AbortedAll(x, gone))
  {
  }

  /** `f` differs from the folders of `x` in the part file of `id` at most. */
  ghost predicate SameElsewhere(x: Inbox, f: Folders, id: TransferId) {
    forall i :: i != id ==> (
      && (i in f.parts <==> i in x.folders.parts)
      && (i in f.parts ==> f.parts[i] == x.folders.parts[i]))
  }

  lemma UpdatingKeepsPlaced(x: Inbox, conns: map<Device, Conn>, t: Transfer, f: Folders)
    requires Placed(x, conns) && SameElsewhere(x, f, t.id)
    requires Counted(t) && Held(t, f) && Owned(t, conns)
    ensures Placed(WithTransfer(x, t, f), conns)
  {
    hide Owned, Counted;
  }

  lemma UpdatingKeepsStructure(sha256: Digest, x: Inbox, conns: map<Device, Conn>, t: Transfer, f: Folders)
    requires Structure(sha256, x, conns) && t.id in x.incoming && SameElsewhere(x, f, t.id)
    requires Counted(t) && Held(t, f) && Owned(t, conns)
    ensures Structure(sha256, WithTransfer(x, t, f), conns)
  {
    UpdatingKeepsPlaced(x, conns, t, f);
    hide Placed, Owned, Verified, Counted, Held;
    assert WithTransfer(x, t, f).incoming.Keys == x.incoming.Keys;
  }

  lemma UpdatingKeepsFaithful(x: Inbox, conns: map<Device, Conn>, t: Transfer, f: Folders)
    requires Placed(x, conns) && Faithful(x) && SameElsewhere(x, f, t.id) && Matches(t, f)
    ensures Faithful(WithTransfer(x, t, f))
  {
    hide Owned, Counted, Held;
  }

  lemma TakingKeepsStructure(sha256: Digest, x: Inbox, conns: map<Device, Conn>, t: Transfer)
    requires Structure(sha256, x, conns) && t.id !in x.incoming && |x.incoming| < MAX_INCOMING_TRANSFERS
    requires Counted(t) && Held(t, x.folders) && Owned(t, conns)
    ensures Structure(sha256, OfferTaken(x, t), conns)
  {
    hide Owned, Verified, Counted, Held;
    var y := OfferTaken(x, t);
    assert y.incoming.Keys == x.incoming.Keys + {t.id};
    assert multiset(y.incoming.Keys) == multiset(x.incoming.Keys) + multiset{t.id};
  }

  lemma TakingKeepsFaithful(x: Inbox, t: Transfer)
    requires Faithful(x) && t.id !in x.folders.parts
    ensures Faithful(OfferTaken(x, t))
  {
  }

  // ---- incoming transfers ----------------------------------------------------------------

  lemma AbortKeepsInv(env: Env, s: State, id: TransferId)
    requires Structured(env, s)
    ensures Structured(env, IncomingAborted(s, id))
    ensures Inv(env, s) ==> Inv(env, IncomingAborted(s, id))
  {
    hide LinksOk, TrustOk, Structure, Placed, Faithful, Counted, Held, AbortedAll;
    if id in s.inbox.incoming {
      StructureParts(env.sha256, s.inbox, s.conns);
      forall i | i in s.inbox.incoming
        ensures Owned(s.inbox.incoming[i], s.conns)
      {
        PlacedParts(s.inbox, s.conns, i);
      }
      hide Owned;
      AbortingKeepsStructure(env.sha256, s.inbox, s.conns, s.conns, {id});
      if Faithful(s.inbox) {
        AbortingKeepsFaithful(s.inbox, {id});
      }
    }
  }

  lemma RestoringIsNothing(x: Inbox, t: Transfer)
    requires t.id in x.incoming && x.incoming[t.id] == t
    ensures WithTransfer(x, t, x.folders) == x
  {
    assert x.incoming[t.id := t] == x.incoming;
  }

  lemma OwnerIsSame(t: Transfer, u: Transfer, conns: map<Device, Conn>)
    requires Owned(t, conns) && u.from == t.from && u.fromKey == t.fromKey
    ensures Owned(u, conns)
  {
  }

  /** Even an offer answered late or twice only breaks the match between part file and hash. */
  lemma AcceptingKeepsStructure(env: Env, s: State, id: TransferId, works: bool)
    requires Structured(env, s)
    ensures Structured(env, OfferAnswered(s, id, true, works))
  {
    hide LinksOk, TrustOk, Structure, Placed, Owned;
    if id in s.inbox.incoming {
      StructureParts(env.sha256, s.inbox, s.conns);
      PlacedParts(s.inbox, s.conns, id);
      var t := s.inbox.incoming[id];
      var (u, f, ok) := Accepted(t, s.inbox.folders, works);
      var begun := s.(inbox := WithTransfer(s.inbox, u, f));
      OwnerIsSame(t, u, s.conns);
      UpdatingKeepsStructure(env.sha256, s.inbox, s.conns, u, f);
      if !works {
        AbortKeepsInv(env, begun, id);
      }
    }
  }

  /** Truncating the part file is harmless exactly while nothing has been hashed. */
  lemma AcceptingKeepsFaithful(x: Inbox, conns: map<Device, Conn>, id: TransferId)
    requires Placed(x, conns) && Faithful(x) && id in x.incoming
    ensures var (u, f, _) := Accepted(x.incoming[id], x.folders, true);
            Faithful(WithTransfer(x, u, f)) <==> x.incoming[id].received == 0
  {
    PlacedParts(x, conns, id);
    var (u, f, _) := Accepted(x.incoming[id], x.folders, true);
    if x.incoming[id].received == 0 {
      UpdatingKeepsFaithful(x, conns, u, f);
    } else {
      assert WithTransfer(x, u, f).incoming[id] == u;
    }
  }

  lemma FailedAcceptKeepsInv(env: Env, s: State, id: TransferId)
    requires Inv(env, s)
    ensures Inv(env, OfferAnswered(s, id, true, false))
  {
    hide LinksOk, TrustOk, Structure, Faithful, IncomingAborted;
    if id in s.inbox.incoming {
      assert s.inbox.incoming[id].id == id by { IdsMatch(env, s, id); }
      RestoringIsNothing(s.inbox, s.inbox.incoming[id]);
      AbortKeepsInv(env, s, id);
    }
  }

  lemma IdsMatch(env: Env, s: State, id: TransferId)
    requires Structured(env, s) && id in s.inbox.incoming
    ensures s.inbox.incoming[id].id == id && Placed(s.inbox, s.conns)
  {
  }

  /** Accepting an offer keeps files faithful exactly when none of its data has arrived. */
  lemma AcceptingKeepsInv(env: Env, s: State, id: TransferId, works: bool)
    requires Inv(env, s)
    ensures Inv(env, OfferAnswered(s, id, true, works))
       <==> works && id in s.inbox.incoming ==> s.inbox.incoming[id].received == 0
  {
    hide Base, Structure, Faithful, Placed;
    if !works {
      FailedAcceptKeepsInv(env, s, id);
    } else if id in s.inbox.incoming {
      AcceptingKeepsStructure(env, s, id, works);
      IdsMatch(env, s, id);
      AcceptingKeepsFaithful(s.inbox, s.conns, id);
    }
  }

  /** The front end answers an offer before any of its data can arrive. */
  predicate Timely(s: State, id: TransferId, accept: bool, works: bool) {
    accept && works && id in s.inbox.incoming ==> s.inbox.incoming[id].received == 0
  }

  lemma AnswerKeepsInv(env: Env, s: State, id: TransferId, accept: bool, works: bool)
    requires Structured(env, s)
    ensures Structured(env, OfferAnswered(s, id, accept, works))
    ensures Inv(env, s) && Timely(s, id, accept, works) ==> Inv(env, OfferAnswered(s, id, accept, works))
  {
    hide LinksOk, TrustOk, Structure, Faithful;
    if accept {
      AcceptingKeepsStructure(env, s, id, works);
      if Inv(env, s) {
        AcceptingKeepsInv(env, s, id, works);
      }
    } else {
      AbortKeepsInv(env, s, id);
    }
  }

  lemma OfferKeepsInv(env: Env, s: State, d: Device, key: Key, m: Message, luck: DiskLuck)
    requires Structured(env, s) && m.FileOffer?
    requires d in s.conns && s.conns[d].authorised && s.conns[d].key == key
    ensures Structured(env, OfferReceived(s, d, key, m, luck))
    ensures Inv(env, s) ==> Inv(env, OfferReceived(s, d, key, m, luck))
  {
    hide LinksOk, TrustOk, Structure, Placed, Faithful, OfferAnswered;
    if |s.inbox.incoming| < MAX_INCOMING_TRANSFERS && m.id !in s.inbox.incoming && !(0 < s.sizeLimit < m.size) {
      var t := Offered(m.id, d, key, m.name, m.size, m.sha);
      StructureParts(env.sha256, s.inbox, s.conns);
      OfferIsConsistent(m.id, d, key, m.name, m.size, m.sha, s.inbox.folders);
      TakingKeepsStructure(env.sha256, s.inbox, s.conns, t);
      if Faithful(s.inbox) {
        TakingKeepsFaithful(s.inbox, t);
      }
      var taken := s.(inbox := OfferTaken(s.inbox, t));
      AnswerKeepsInv(env, taken, m.id, true, luck.opens);
    }
  }

  lemma RemovingIsAccounted(x: Inbox, id: TransferId, f: Folders)
    requires Accounted(x) && id in x.incoming
    ensures Accounted(Removed(x, id, f))
  {
    SplitMultiset(x.incoming.Keys, {id});
    assert (x.incoming - {id}).Keys == x.incoming.Keys - {id};
    assert multiset({id}) == multiset{id};
  }

  lemma RemovingKeepsPlaced(x: Inbox, conns: map<Device, Conn>, id: TransferId, f: Folders)
    requires Placed(x, conns) && f.parts == x.folders.parts - {id}
    ensures Placed(Removed(x, id, f), conns)
  {
    hide Owned, Counted;
  }

  lemma RemovingKeepsStructure(sha256: Digest, x: Inbox, conns: map<Device, Conn>, id: TransferId, f: Folders)
    requires Structure(sha256, x, conns) && id in x.incoming && f.parts == x.folders.parts - {id}
    ensures Structure(sha256, Removed(x, id, f), conns)
  {
    hide Placed, Verified, Accounted;
    var y := Removed(x, id, f);
    RemovingKeepsPlaced(x, conns, id, f);
    RemovingIsAccounted(x, id, f);
    SplitMultiset(x.incoming.Keys, {id});
    assert y.incoming.Keys == x.incoming.Keys - {id};
  }

  lemma RemovingKeepsFaithful(x: Inbox, id: TransferId, f: Folders)
    requires Faithful(x) && f.parts == x.folders.parts - {id}
    ensures Faithful(Removed(x, id, f))
  {
  }

  lemma PublishingKeepsStructure(sha256: Digest, x: Inbox, conns: map<Device, Conn>, p: Published)
    requires Structure(sha256, x, conns) && Verified(sha256, p)
    ensures Structure(sha256, x.(published := x.published + [p]), conns)
  {
    hide Verified, Owned, Counted, Held;
  }

  lemma PublishingKeepsFaithful(x: Inbox, p: Published)
    requires Faithful(x) && p.content == p.transfer.hashed
    ensures Faithful(x.(published := x.published + [p]))
  {
    hide Matches;
  }

  lemma CompletingKeepsInv(env: Env, s: State, d: Device, t: Transfer, works: bool)
    requires Structured(env, s) && t.id in s.inbox.incoming && s.inbox.incoming[t.id] == t && t.accepted
    ensures Structured(env, Completed(env, s, d, t, works))
    ensures Inv(env, s) ==> Inv(env, Completed(env, s, d, t, works))
  {
    hide LinksOk, TrustOk, Structure, Placed, Owned, Faithful, Finished, Removed;
    var x := s.inbox;
    var (f, r) := Finished(t, x.folders, env.sha256, env.pid, works);
    StructureParts(env.sha256, x, s.conns);
    PlacedParts(x, s.conns, t.id);
    FinishFacts(t, x.folders, env.sha256, env.pid, works);
    RemovingKeepsStructure(env.sha256, x, s.conns, t.id, f);
    if Faithful(x) {
      RemovingKeepsFaithful(x, t.id, f);
    }
    if r.Ok? {
      var p := Published(t, r.value, x.folders.parts[t.id]);
      PublishingKeepsStructure(env.sha256, Removed(x, t.id, f), s.conns, p);
      if Faithful(x) {
        FaithfulAt(x, t.id);
        PublishingKeepsFaithful(Removed(x, t.id, f), p);
      }
    }
  }

  lemma FaithfulAt(x: Inbox, id: TransferId)
    requires Faithful(x) && id in x.incoming
    ensures Matches(x.incoming[id], x.folders)
  {
  }

  /** What `finish` does to the part files, and what it has checked when it publishes. */
  lemma FinishFacts(t: Transfer, f: Folders, sha256: Digest, pid: nat, works: bool)
    requires Counted(t) && Held(t, f) && t.accepted
    ensures var (g, r) := Finished(t, f, sha256, pid, works);
            && g.parts == f.parts - {t.id}
            && t.id in f.parts
            && (r.Ok? ==> |t.hashed| == t.size && sha256(t.hashed) == t.sha)
  {
  }

  lemma ChunkKeepsInv(env: Env, s: State, d: Device, key: Key, m: Message, luck: DiskLuck)
    requires Structured(env, s) && m.FileChunk?
    ensures Structured(env, ChunkReceived(env, s, d, key, m, luck))
    ensures Inv(env, s) ==> Inv(env, ChunkReceived(env, s, d, key, m, luck))
  {
    hide LinksOk, TrustOk, Structure, Placed, Owned, Faithful, Completed, IncomingAborted, ChunkWritten, Counted, Held, Matches;
    if m.id in s.inbox.incoming {
      StructureParts(env.sha256, s.inbox, s.conns);
      PlacedParts(s.inbox, s.conns, m.id);
      var t := s.inbox.incoming[m.id];
      var (u, f, r) := ChunkWritten(t, s.inbox.folders, m.offset, m.data, luck.writes);
      ChunkKeepsCount(t, s.inbox, m.offset, m.data, luck.writes);
      OwnerIsSame(t, u, s.conns);
      UpdatingKeepsStructure(env.sha256, s.inbox, s.conns, u, f);
      var written := s.(inbox := WithTransfer(s.inbox, u, f));
      if Faithful(s.inbox) {
        FaithfulAt(s.inbox, m.id);
        UpdatingKeepsFaithful(s.inbox, s.conns, u, f);
      }
      if r.Err? {
        AbortKeepsInv(env, SendRaw(written, d, FileError(m.id)), m.id);
      } else if u.received == u.size {
        CompletingKeepsInv(env, written, d, u, luck.publishes);
      }
    }
  }

  lemma ChunkKeepsCount(t: Transfer, x: Inbox, offset: nat, data: Bytes, works: bool)
    requires Counted(t) && Held(t, x.folders)
    ensures var (u, f, r) := ChunkWritten(t, x.folders, offset, data, works);
            && Counted(u) && Held(u, f) && SameElsewhere(x, f, t.id)
            && u.id == t.id && u.from == t.from && u.fromKey == t.fromKey
            && (Matches(t, x.folders) ==> Matches(u, f))
            && (r.Ok? ==> u.accepted)
  {
  }

  lemma DoneKeepsInv(env: Env, s: State, id: TransferId)
    requires Structured(env, s)
    ensures Structured(env, DoneReceived(s, id))
    ensures Inv(env, s) ==> Inv(env, DoneReceived(s, id))
  {
    hide Structured, Faithful, IncomingAborted;
    AbortKeepsInv(env, s, id);
  }

  lemma CancelKeepsInv(env: Env, s: State, id: TransferId)
    requires Structured(env, s)
    ensures Structured(env, TransferCancelled(s, id))
    ensures Inv(env, s) ==> Inv(env, TransferCancelled(s, id))
  {
    hide LinksOk, TrustOk, Structure, Faithful, IncomingAborted;
    if id in s.inbox.incoming && id !in s.outgoing {
      AbortKeepsInv(env, SendRaw(s, s.inbox.incoming[id].from, FileCancel(id)), id);
    }
  }

  // ---- connections and pairing -----------------------------------------------------------

  lemma ConnUpdateKeepsLinks(env: Env, conns: map<Device, Conn>, live: map<ConnId, Key>, next: ConnId, d: Device, c: Conn)
    requires LinksOk(env, conns, live, next)
    requires d in conns && c.serial == conns[d].serial && c.key == conns[d].key
    ensures LinksOk(env, conns[d := c], live, next)
  {
    assert conns[d := c].Keys == conns.Keys;
  }

  /** Flags of one connection change, none is revoked and authority is not gained. */
  lemma FlagsKeepInv(env: Env, s: State, d: Device, c: Conn)
    requires Base(env, s) && d in s.conns
    requires c.serial == s.conns[d].serial && c.key == s.conns[d].key && c.authorised == s.conns[d].authorised
    ensures Base(env, s.(conns := s.conns[d := c]))
    ensures Structured(env, s) ==> Structured(env, s.(conns := s.conns[d := c]))
    ensures Inv(env, s) ==> Inv(env, s.(conns := s.conns[d := c]))
  {
    hide Structure, Faithful, LinksOk;
    ConnUpdateKeepsLinks(env, s.conns, s.live, s.next, d, c);
    GrowingKeepsStructure(env.sha256, s.inbox, s.conns, s.conns[d := c]);
  }

  lemma CloseKeepsInv(env: Env, s: State, d: Device)
    requires Base(env, s)
    ensures Base(env, Closed(s, d))
    ensures Structured(env, s) ==> Structured(env, Closed(s, d))
    ensures Inv(env, s) ==> Inv(env, Closed(s, d))
  {
    hide LinksOk, TrustOk, Structure, Faithful;
    if d in s.conns {
      FlagsKeepInv(env, s, d, s.conns[d].(closed := true));
    }
  }

  lemma TrustAddedSize(trust: map<Key, Trusted>, key: Key)
    requires |trust| <= MAX_TRUSTED_DEVICES
    ensures var t := TrustAdded(trust, key);
            t.Some? ==> |t.value| <= MAX_TRUSTED_DEVICES && t.value.Keys == trust.Keys + {key}
  {
  }

  lemma AuthorisingKeepsTrust(env: Env, s: State, d: Device, trust: map<Key, Trusted>)
    requires LinksOk(env, s.conns, s.live, s.next) && TrustOk(s.trust, s.conns) && d in s.conns
    requires |trust| <= MAX_TRUSTED_DEVICES && trust.Keys == s.trust.Keys + {s.conns[d].key}
    ensures TrustOk(trust, s.conns[d := s.conns[d].(authorised := true)])
  {
    var conns := s.conns[d := s.conns[d].(authorised := true)];
    forall e | e in conns && !conns[e].authorised
      ensures conns[e].key !in trust
    {
      assert env.deviceOf(s.conns[e].key) == e && env.deviceOf(s.conns[d].key) == d;
    }
  }

  lemma FinalizeKeepsInv(env: Env, s: State, d: Device)
    requires Base(env, s)
    ensures Base(env, PairingFinalized(s, d))
    ensures Structured(env, s) ==> Structured(env, PairingFinalized(s, d))
    ensures Inv(env, s) ==> Inv(env, PairingFinalized(s, d))
  {
    hide LinksOk, Structure, Faithful, TrustAdded;
    if d in s.conns && s.conns[d].localOk && s.conns[d].remoteOk && !s.conns[d].authorised {
      TrustAddedSize(s.trust, s.conns[d].key);
      if TrustAdded(s.trust, s.conns[d].key).Some? {
        var c := s.conns[d].(authorised := true);
        AuthorisingKeepsTrust(env, s, d, TrustAdded(s.trust, s.conns[d].key).value);
        ConnUpdateKeepsLinks(env, s.conns, s.live, s.next, d, c);
        GrowingKeepsStructure(env.sha256, s.inbox, s.conns, s.conns[d := c]);
      }
    }
  }

  lemma PairingKeepsInv(env: Env, s: State, d: Device, accept: bool)
    requires Base(env, s)
    ensures Base(env, PairingAnswered(s, d, accept)) && Base(env, PeerAccepted(s, d))
    ensures Structured(env, s) ==> Structured(env, PairingAnswered(s, d, accept)) && Structured(env, PeerAccepted(s, d))
    ensures Inv(env, s) ==> Inv(env, PairingAnswered(s, d, accept)) && Inv(env, PeerAccepted(s, d))
  {
    hide LinksOk, TrustOk, Structure, Faithful, PairingFinalized;
    if d in s.conns {
      CloseKeepsInv(env, SendRaw(s, d, PairReject), d);
      var local, remote := s.conns[d].(localOk := true), s.conns[d].(remoteOk := true);
      FlagsKeepInv(env, s, d, local);
      FlagsKeepInv(env, s, d, remote);
      FinalizeKeepsInv(env, SendRaw(s.(conns := s.conns[d := local]), d, PairAccept), d);
      FinalizeKeepsInv(env, s.(conns := s.conns[d := remote]), d);
    }
  }

  lemma LeavingKeepsLinks(env: Env, conns: map<Device, Conn>, live: map<ConnId, Key>, next: ConnId, c: ConnId)
    requires LinksOk(env, conns, live, next) && c in live
    ensures LinksOk(env, conns - {env.deviceOf(live[c])}, live - {c}, next)
  {
    var d := env.deviceOf(live[c]);
    assert (conns - {d}).Keys == conns.Keys - {d};
    SubsetCardinality(conns.Keys - {d}, conns.Keys);
  }

  lemma TearDownKeepsInv(env: Env, s: State, c: ConnId)
    requires Base(env, s) && c in s.live
    ensures Base(env, TornDown(s, c, env.deviceOf(s.live[c])))
    ensures Structured(env, s) ==> Structured(env, TornDown(s, c, env.deviceOf(s.live[c])))
    ensures Inv(env, s) ==> Inv(env, TornDown(s, c, env.deviceOf(s.live[c])))
  {
    hide LinksOk, Structure, Faithful, AbortedAll;
    var d := env.deviceOf(s.live[c]);
    LeavingKeepsLinks(env, s.conns, s.live, s.next, c);
    if Structure(env.sha256, s.inbox, s.conns) {
      StructureParts(env.sha256, s.inbox, s.conns);
      AbortingKeepsStructure(env.sha256, s.inbox, s.conns, s.conns - {d}, From(s.inbox, d));
      if Faithful(s.inbox) {
        AbortingKeepsFaithful(s.inbox, From(s.inbox, d));
      }
    }
  }

  lemma EnteringKeepsLinks(env: Env, conns: map<Device, Conn>, live: map<ConnId, Key>, next: ConnId, d: Device, c: Conn)
    requires LinksOk(env, conns, live, next)
    requires d !in conns && |conns| < MAX_CONNECTIONS && d == env.deviceOf(c.key) && c.serial == next
    ensures LinksOk(env, conns[d := c], live[next := c.key], next + 1)
  {
    assert conns[d := c].Keys == conns.Keys + {d};
  }

  lemma EnteringKeepsInv(env: Env, s: State, d: Device, c: Conn)
    requires Base(env, s) && d !in s.conns && |s.conns| < MAX_CONNECTIONS
    requires d == env.deviceOf(c.key) && c.serial == s.next && (c.authorised || c.key !in s.trust)
    ensures var t := s.(conns := s.conns[d := c], live := s.live[s.next := c.key], next := s.next + 1);
            Base(env, t) && (Structured(env, s) ==> Structured(env, t)) && (Inv(env, s) ==> Inv(env, t))
  {
    hide Structure, Faithful, LinksOk;
    EnteringKeepsLinks(env, s.conns, s.live, s.next, d, c);
    GrowingKeepsStructure(env.sha256, s.inbox, s.conns, s.conns[d := c]);
  }

  lemma SendingKeepsInv(env: Env, s: State, d: Device, m: Message)
    ensures Base(env, SendRaw(s, d, m)) == Base(env, s)
    ensures Structured(env, SendRaw(s, d, m)) == Structured(env, s) && Inv(env, SendRaw(s, d, m)) == Inv(env, s)
  {
    hide LinksOk, TrustOk, Structure, Faithful;
  }

  lemma OpenKeepsInv(env: Env, s: State, key: Key, weDialed: bool, expected: Option<Key>)
    requires Base(env, s)
    ensures Base(env, Opened(env, s, key, weDialed, expected))
    ensures Structured(env, s) ==> Structured(env, Opened(env, s, key, weDialed, expected))
    ensures Inv(env, s) ==> Inv(env, Opened(env, s, key, weDialed, expected))
  {
    hide Base, Structured, Inv, SendRaw;
    var d := env.deviceOf(key);
    var c := Conn(s.next, key, key in s.trust && !s.trust[key].blocked, false, false, false);
    if d !in s.conns && |s.conns| < MAX_CONNECTIONS && (c.authorised || key !in s.trust) {
      EnteringKeepsInv(env, s, d, c);
      var entered := s.(conns := s.conns[d := c], live := s.live[s.next := key], next := s.next + 1);
      SendingKeepsInv(env, entered, d, Hello);
      SendingKeepsInv(env, SendRaw(entered, d, Hello), d, PairRequest);
    }
  }

  // ---- user commands ------------------------------------------------------------------------

  lemma RetrustingKeepsInv(env: Env, s: State, trust: map<Key, Trusted>)
    requires Base(env, s) && trust.Keys <= s.trust.Keys
    ensures Base(env, s.(trust := trust))
    ensures Structured(env, s) ==> Structured(env, s.(trust := trust))
    ensures Inv(env, s) ==> Inv(env, s.(trust := trust))
  {
    hide Structure, Faithful, LinksOk;
    SubsetCardinality(trust.Keys, s.trust.Keys);
  }

  lemma CommandsKeepInv(env: Env, s: State, d: Device, on: bool)
    requires Base(env, s)
    ensures Base(env, Forgotten(env, s, d)) && Base(env, BlockedSet(env, s, d, on)) && Base(env, AutoAcceptSet(env, s, d, on))
    ensures Structured(env, s) ==>
      Structured(env, Forgotten(env, s, d)) && Structured(env, BlockedSet(env, s, d, on)) && Structured(env, AutoAcceptSet(env, s, d, on))
    ensures Inv(env, s) ==>
      Inv(env, Forgotten(env, s, d)) && Inv(env, BlockedSet(env, s, d, on)) && Inv(env, AutoAcceptSet(env, s, d, on))
  {
    hide LinksOk, TrustOk, Structure, Faithful, Closed, KeyFor;
    if KeyFor(env, s, d).Some? {
      var key := KeyFor(env, s, d).value;
      RetrustingKeepsInv(env, s, s.trust - {key});
      CloseKeepsInv(env, s.(trust := s.trust - {key}), d);
      CloseKeepsInv(env, s, d);
      if key in s.trust {
        var marked := s.trust[key := s.trust[key].(blocked := on)];
        RetrustingKeepsInv(env, s, marked);
        CloseKeepsInv(env, s.(trust := marked), d);
        RetrustingKeepsInv(env, s, s.trust[key := s.trust[key].(autoAccept := on)]);
      }
    }
  }

  // ---- one step, and every run ---------------------------------------------------------------

  /** Nothing about trust, connections or announced devices differs. */
  predicate SameLinks(s: State, t: State) {
    t.trust == s.trust && t.peers == s.peers && t.conns == s.conns && t.live == s.live && t.next == s.next
  }

  lemma SendingKeepsLinks(s: State, d: Device, m: Message)
    ensures SameLinks(s, SendRaw(s, d, m)) && SendRaw(s, d, m).inbox == s.inbox && SendRaw(s, d, m).outgoing == s.outgoing
  {
  }

  lemma AbortKeepsLinks(s: State, id: TransferId)
    ensures SameLinks(s, IncomingAborted(s, id))
    ensures SameLinks(s, DoneReceived(s, id))
  {
    hide AbortedAll;
  }

  lemma AnswerKeepsLinks(s: State, id: TransferId, accept: bool, works: bool)
    ensures SameLinks(s, OfferAnswered(s, id, accept, works))
  {
    hide IncomingAborted, SendRaw, Accepted;
    if id in s.inbox.incoming {
      var t := s.inbox.incoming[id];
      var (u, f, ok) := Accepted(t, s.inbox.folders, works);
      var begun := s.(inbox := WithTransfer(s.inbox, u, f));
      AbortKeepsLinks(s, id);
      AbortKeepsLinks(begun, id);
      SendingKeepsLinks(IncomingAborted(s, id), t.from, FileReject(id));
      SendingKeepsLinks(begun, t.from, FileAccept(id));
      SendingKeepsLinks(IncomingAborted(begun, id), t.from, FileReject(id));
    }
  }

  lemma CancelKeepsLinks(s: State, id: TransferId)
    ensures SameLinks(s, TransferCancelled(s, id))
  {
    hide IncomingAborted;
    if id in s.inbox.incoming && id !in s.outgoing {
      AbortKeepsLinks(SendRaw(s, s.inbox.incoming[id].from, FileCancel(id)), id);
    }
  }

  lemma OfferKeepsLinks(s: State, d: Device, key: Key, m: Message, luck: DiskLuck)
    requires m.FileOffer?
    ensures SameLinks(s, OfferReceived(s, d, key, m, luck))
  {
    hide OfferAnswered, SendRaw, OfferTaken, Offered;
    SendingKeepsLinks(s, d, FileReject(m.id));
    AnswerKeepsLinks(s.(inbox := OfferTaken(s.inbox, Offered(m.id, d, key, m.name, m.size, m.sha))), m.id, true, luck.opens);
  }

  lemma CompletingKeepsLinks(env: Env, s: State, d: Device, t: Transfer, works: bool)
    ensures SameLinks(s, Completed(env, s, d, t, works))
  {
    hide Finished, Removed;
  }

  lemma ChunkKeepsLinks(env: Env, s: State, d: Device, key: Key, m: Message, luck: DiskLuck)
    requires m.FileChunk?
    ensures SameLinks(s, ChunkReceived(env, s, d, key, m, luck))
  {
    hide ChunkWritten, Completed, IncomingAborted, SendRaw, WithTransfer;
    if m.id in s.inbox.incoming {
      var (u, f, r) := ChunkWritten(s.inbox.incoming[m.id], s.inbox.folders, m.offset, m.data, luck.writes);
      var written := s.(inbox := WithTransfer(s.inbox, u, f));
      SendingKeepsLinks(written, d, FileError(m.id));
      AbortKeepsLinks(SendRaw(written, d, FileError(m.id)), m.id);
      CompletingKeepsLinks(env, written, d, u, luck.publishes);
    }
  }

  /** Only pairing messages touch trust and connections. */
  lemma HandledKeepsLinks(env: Env, s: State, d: Device, key: Key, m: Message, luck: DiskLuck)
    requires !m.PairAccept?
    ensures SameLinks(s, Handled(env, s, d, key, m, luck).0)
    ensures !Handled(env, s, d, key, m, luck).1 ==> Handled(env, s, d, key, m, luck).0 == s
  {
    hide OfferReceived, ChunkReceived, DoneReceived, IncomingAborted, PeerAccepted;
    match m
    case FileOffer(_, _, _, _) => OfferKeepsLinks(s, d, key, m, luck);
    case FileChunk(_, _, _) => ChunkKeepsLinks(env, s, d, key, m, luck);
    case FileDone(id) => AbortKeepsLinks(s, id);
    case FileCancel(id) => AbortKeepsLinks(Signalled(s, id, Cancel), id);
    case FileError(id) => AbortKeepsLinks(Signalled(s, id, Cancel), id);
    case _ =>
  }

  lemma HandledKeepsInv(env: Env, s: State, d: Device, key: Key, m: Message, luck: DiskLuck)
    requires Base(env, s) && d in s.conns && s.conns[d].key == key
    ensures Base(env, Handled(env, s, d, key, m, luck).0)
    ensures Structured(env, s) ==> Structured(env, Handled(env, s, d, key, m, luck).0)
    ensures Inv(env, s) ==> Inv(env, Handled(env, s, d, key, m, luck).0)
    ensures !Handled(env, s, d, key, m, luck).1 ==> Handled(env, s, d, key, m, luck).0 == s
  {
    hide LinksOk, TrustOk, Structure, Faithful, OfferReceived, ChunkReceived, DoneReceived, IncomingAborted, PeerAccepted;
    if m.PairAccept? {
      PairingKeepsInv(env, s, d, true);
    } else {
      HandledKeepsLinks(env, s, d, key, m, luck);
      if Structured(env, s) && (m.AllowedBeforePairing() || s.conns[d].authorised) {
        match m
        case FileOffer(_, _, _, _) => OfferKeepsInv(env, s, d, key, m, luck);
        case FileChunk(_, _, _) => ChunkKeepsInv(env, s, d, key, m, luck);
        case FileDone(id) => DoneKeepsInv(env, s, id);
        case FileCancel(id) => AbortKeepsInv(env, Signalled(s, id, Cancel), id);
        case FileError(id) => AbortKeepsInv(env, Signalled(s, id, Cancel), id);
        case _ =>
      }
    }
  }

  lemma PairAcceptHandled(env: Env, s: State, d: Device, key: Key, luck: DiskLuck)
    ensures Handled(env, s, d, key, PairAccept, luck) == (PeerAccepted(s, d), true)
  {
  }

  lemma LiveIsConnected(env: Env, s: State, c: ConnId)
    requires Base(env, s) && c in s.live
    ensures var d := env.deviceOf(s.live[c]);
            d in s.conns && s.conns[d].key == s.live[c] && s.conns[d].serial == c
  {
  }

  lemma DeliverKeepsInv(env: Env, s: State, c: ConnId, m: Message, luck: DiskLuck)
    requires Base(env, s)
    ensures Base(env, Delivered(env, s, c, m, luck))
    ensures Structured(env, s) ==> Structured(env, Delivered(env, s, c, m, luck))
    ensures Inv(env, s) ==> Inv(env, Delivered(env, s, c, m, luck))
  {
    hide Base, Structure, Faithful, Handled, TornDown;
    if c in s.live {
      LiveIsConnected(env, s, c);
      HandledKeepsInv(env, s, env.deviceOf(s.live[c]), s.live[c], m, luck);
      TearDownKeepsInv(env, s, c);
    }
  }

  predicate StepTimely(s: State, a: Action) {
    a.AnswerOffer? ==> Timely(s, a.transfer, a.accept, a.opens)
  }

  lemma StepKeepsInv(env: Env, s: State, a: Action)
    requires Base(env, s)
    ensures Base(env, Step(env, s, a))
    ensures Structured(env, s) ==> Structured(env, Step(env, s, a))
    ensures Inv(env, s) && StepTimely(s, a) ==> Inv(env, Step(env, s, a))
  {
    hide LinksOk, TrustOk, Structure, Faithful, Opened, Delivered, TornDown, PairingAnswered, OfferAnswered,
         TransferCancelled, Closed, Forgotten, BlockedSet, AutoAcceptSet;
    match a
    case Open(key, weDialed, expected) => OpenKeepsInv(env, s, key, weDialed, expected);
    case Deliver(c, m, luck) => DeliverKeepsInv(env, s, c, m, luck);
    case Drop(c) => if c in s.live { TearDownKeepsInv(env, s, c); }
    case AnswerPairing(d, accept) => PairingKeepsInv(env, s, d, accept);
    case AnswerOffer(id, accept, opens) =>
      AnswerKeepsLinks(s, id, accept, opens);
      if Structured(env, s) { AnswerKeepsInv(env, s, id, accept, opens); }
    case CancelTransfer(id) =>
      CancelKeepsLinks(s, id);
      if Structured(env, s) { CancelKeepsInv(env, s, id); }
    case Disconnect(d) => CloseKeepsInv(env, s, d);
    case Forget(d) => CommandsKeepInv(env, s, d, true);
    case SetBlocked(d, on) => CommandsKeepInv(env, s, d, on);
    case SetAutoAccept(d, on) => CommandsKeepInv(env, s, d, on);
    case _ =>
  }

  lemma AfterOneMore(env: Env, s: State, actions: seq<Action>, a: Action)
    ensures After(env, s, actions + [a]) == Step(env, After(env, s, actions), a)
  {
    hide Step;
    assert (actions + [a])[..|actions|] == actions;
  }

  /** The user answers every offer of the run before any of its data arrives. */
  predicate Orderly(env: Env, s: State, actions: seq<Action>)
    decreases |actions|
  {
    actions == [] ||
    var n := |actions| - 1;
    Orderly(env, s, actions[..n]) && StepTimely(After(env, s, actions[..n]), actions[n])
  }

  /**
   * In every run the tables stay bounded, owned and accounted for; files are what was hashed whenever
   * the offers are answered in time.
   */
  lemma {:induction false} EveryRunKeepsInv(env: Env, s: State, actions: seq<Action>)
    requires Fresh(s)
    ensures Structured(env, After(env, s, actions))
    ensures Orderly(env, s, actions) ==> Inv(env, After(env, s, actions))
    decreases |actions|
  {
    hide Base, Structure, Faithful, Step;
    if actions == [] {
      FreshInv(env, s);
    } else {
      var n := |actions| - 1;
      EveryRunKeepsInv(env, s, actions[..n]);
      StepKeepsInv(env, After(env, s, actions[..n]), actions[n]);
    }
  }

  lemma NoLinks(env: Env, s: State)
    requires Base(env, s) && s.live == map[]
    ensures s.conns == map[]
  {
    hide TrustOk;
    assert s.conns.Keys == {};
  }

  lemma NoTransfers(sha256: Digest, x: Inbox)
    requires Structure(sha256, x, map[])
    ensures x.incoming == map[] && x.folders.parts == map[]
  {
    hide Counted, Held, Verified;
    assert x.incoming.Keys == {};
    assert x.folders.parts.Keys == {};
  }

  /** Once the last connection is gone, no transfer and no part file is left, and every offer was reported. */
  lemma NothingOutlivesItsConnection(env: Env, s: State, actions: seq<Action>)
    requires Fresh(s) && After(env, s, actions).live == map[]
    ensures var x := After(env, s, actions).inbox;
            x.incoming == map[] && x.folders.parts == map[] && x.offered == x.finished
  {
    EveryRunKeepsInv(env, s, actions);
    hide After, LinksOk, TrustOk, Placed;
    var t := After(env, s, actions);
    NoLinks(env, t);
    NoTransfers(env.sha256, t.inbox);
    assert multiset(t.inbox.incoming.Keys) == multiset{};
  }

  /** An offer is reported finished exactly as often as it was taken in, but for a transfer still running. */
  lemma OffersAreConserved(env: Env, s: State, actions: seq<Action>, id: TransferId)
    requires Fresh(s)
    ensures var x := After(env, s, actions).inbox;
            x.offered[id] == x.finished[id] + if id in x.incoming then 1 else 0
  {
    EveryRunKeepsInv(env, s, actions);
    hide After;
    var x := After(env, s, actions).inbox;
    assert multiset(x.incoming.Keys)[id] == if id in x.incoming then 1 else 0;
  }
}
