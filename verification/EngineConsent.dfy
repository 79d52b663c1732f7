/** Who may send data: consent is read off the run itself, not off the engine's flags. */
module EngineConsent {
  import opened Prelude
  import opened Transfers
  import opened Engines
  import opened EngineInvariant

  // ---- what happened in a run ---------------------------------------------------------

  /** Action `j` is the local user accepting the peer of connection `c`, which proved key `k`. */
  ghost predicate UserAccepted(env: Env, s: State, actions: seq<Action>, c: ConnId, k: Key, j: nat) {
    && j < |actions|
    && actions[j].AnswerPairing? && actions[j].accept
    && var before := After(env, s, actions[..j]);
       && actions[j].device in before.conns
       && before.conns[actions[j].device].serial == c
       && before.conns[actions[j].device].key == k
  }

  /** Action `j` is a PairAccept arriving on connection `c`. */
  ghost predicate PeerAgreed(env: Env, s: State, actions: seq<Action>, c: ConnId, k: Key, j: nat) {
    && j < |actions|
    && actions[j].Deliver? && actions[j].conn == c && actions[j].message == PairAccept
    && var before := After(env, s, actions[..j]);
       c in before.live && before.live[c] == k
  }

  /** Action `j` opens connection `c` while key `k` is stored and not blocked. */
  ghost predicate StoredAtOpen(env: Env, s: State, actions: seq<Action>, c: ConnId, k: Key, j: nat) {
    && j < |actions|
    && actions[j].Open? && actions[j].key == k
    && var before := After(env, s, actions[..j]);
       before.next == c && k in before.trust && !before.trust[k].blocked
  }

  ghost predicate UserAcceptedOnce(env: Env, s: State, actions: seq<Action>, c: ConnId, k: Key) {
    exists j: nat :: UserAccepted(env, s, actions, c, k, j)
  }

  ghost predicate PeerAgreedOnce(env: Env, s: State, actions: seq<Action>, c: ConnId, k: Key) {
    exists j: nat :: PeerAgreed(env, s, actions, c, k, j)
  }

  ghost predicate Stored(env: Env, s: State, actions: seq<Action>, c: ConnId, k: Key) {
    exists j: nat :: StoredAtOpen(env, s, actions, c, k, j)
  }

  ghost predicate BothAgreed(env: Env, s: State, actions: seq<Action>, c: ConnId, k: Key) {
    UserAcceptedOnce(env, s, actions, c, k) && PeerAgreedOnce(env, s, actions, c, k)
  }

  ghost predicate Entitled(env: Env, s: State, actions: seq<Action>, c: ConnId, k: Key) {
    Stored(env, s, actions, c, k) || BothAgreed(env, s, actions, c, k)
  }

  /** What has happened in a run has still happened when the run goes on. */
  lemma HistoryGrows(env: Env, s: State, actions: seq<Action>, a: Action, c: ConnId, k: Key)
    ensures UserAcceptedOnce(env, s, actions, c, k) ==> UserAcceptedOnce(env, s, actions + [a], c, k)
    ensures PeerAgreedOnce(env, s, actions, c, k) ==> PeerAgreedOnce(env, s, actions + [a], c, k)
    ensures Stored(env, s, actions, c, k) ==> Stored(env, s, actions + [a], c, k)
  {
    hide After;
    var longer := actions + [a];
    assert forall j: nat :: j < |actions| ==> longer[..j] == actions[..j] && longer[j] == actions[j];
    if UserAcceptedOnce(env, s, actions, c, k) {
      var j: nat :| UserAccepted(env, s, actions, c, k, j);
      assert UserAccepted(env, s, longer, c, k, j);
    }
    if PeerAgreedOnce(env, s, actions, c, k) {
      var j: nat :| PeerAgreed(env, s, actions, c, k, j);
      assert PeerAgreed(env, s, longer, c, k, j);
    }
    if Stored(env, s, actions, c, k) {
      var j: nat :| StoredAtOpen(env, s, actions, c, k, j);
      assert StoredAtOpen(env, s, longer, c, k, j);
    }
  }

  // ---- what one step can do to a connection ------------------------------------------------

  predicate AgreementArrives(before: State, a: Action, c: ConnId) {
    a.Deliver? && a.conn == c && a.message == PairAccept && c in before.live
  }

  /** Connection `c` after the step is new, or is an old one whose flags the step accounts for. */
  ghost predicate Explained(env: Env, before: State, a: Action, c: Conn) {
    || (&& a.Open? && c.serial == before.next && c.key == a.key && !c.localOk && !c.remoteOk
        && (c.authorised ==> a.key in before.trust && !before.trust[a.key].blocked))
    || var d := env.deviceOf(c.key);
       && d in before.conns
       && var was := before.conns[d];
          && was.serial == c.serial && was.key == c.key
          && (c.localOk ==> was.localOk || a == AnswerPairing(d, true))
          && (c.remoteOk ==> was.remoteOk || AgreementArrives(before, a, c.serial))
          && (c.authorised ==> was.authorised || (c.localOk && c.remoteOk))
  }

  /** New keys in the store belong to connections both sides have accepted. */
  ghost predicate TrustExplained(before: State, after: State) {
    forall k :: k in after.trust && k !in before.trust ==> KeyAccepted(after, k)
  }

  ghost predicate KeyAccepted(s: State, k: Key) {
    exists d :: d in s.conns && s.conns[d].key == k && s.conns[d].localOk && s.conns[d].remoteOk
  }

  ghost predicate StepExplained(env: Env, before: State, a: Action, after: State) {
    && (forall d :: d in after.conns ==> Explained(env, before, a, after.conns[d]))
    && TrustExplained(before, after)
  }

  /** No flag but `closed` differs, no connection is new, and no key either. */
  ghost predicate Quiet(before: State, after: State) {
    && after.trust.Keys <= before.trust.Keys
    && forall d :: d in after.conns ==> (
         d in before.conns && after.conns[d] == before.conns[d].(closed := after.conns[d].closed))
  }

  lemma QuietIsExplained(env: Env, before: State, a: Action, after: State)
    requires Base(env, before) && Quiet(before, after)
    ensures StepExplained(env, before, a, after)
  {
    forall d | d in after.conns
      ensures Explained(env, before, a, after.conns[d])
    {
      assert env.deviceOf(before.conns[d].key) == d;
    }
  }

  lemma SameLinksIsQuiet(before: State, after: State)
    requires after.trust == before.trust && after.conns == before.conns
    ensures Quiet(before, after)
  {
  }

  lemma ClosingIsQuiet(before: State, s: State, d: Device)
    requires Quiet(before, s)
    ensures Quiet(before, Closed(s, d))
  {
  }

  lemma RetrustingIsQuiet(before: State, s: State, trust: map<Key, Trusted>)
    requires Quiet(before, s) && trust.Keys <= s.trust.Keys
    ensures Quiet(before, s.(trust := trust))
  {
  }

  lemma OpenIsExplained(env: Env, s: State, key: Key, weDialed: bool, expected: Option<Key>)
    requires Base(env, s)
    ensures StepExplained(env, s, Open(key, weDialed, expected), Opened(env, s, key, weDialed, expected))
  {
    var a := Open(key, weDialed, expected);
    var after := Opened(env, s, key, weDialed, expected);
    forall d | d in after.conns
      ensures Explained(env, s, a, after.conns[d])
    {
      if d in s.conns {
        assert env.deviceOf(s.conns[d].key) == d;
      }
    }
  }

  /** `s` is `before` with one of the two agreement flags of device `d` set, as `a` allows. */
  lemma FinalizeIsExplained(env: Env, before: State, a: Action, s: State, d: Device)
    requires Base(env, before) && d in before.conns && s.trust == before.trust
    requires d in s.conns && s.conns == before.conns[d := s.conns[d]]
    requires Explained(env, before, a, s.conns[d]) && s.conns[d].key == before.conns[d].key && !a.Open?
    ensures StepExplained(env, before, a, PairingFinalized(s, d))
  {
    var after := PairingFinalized(s, d);
    forall e | e in after.conns
      ensures Explained(env, before, a, after.conns[e])
    {
      assert env.deviceOf(before.conns[e].key) == e;
    }
    forall k | k in after.trust && k !in before.trust
      ensures KeyAccepted(after, k)
    {
      assert after.conns[d].key == k;
    }
  }

  lemma AnswerIsExplained(env: Env, s: State, d: Device, accept: bool)
    requires Base(env, s)
    ensures StepExplained(env, s, AnswerPairing(d, accept), PairingAnswered(s, d, accept))
  {
    hide PairingFinalized, StepExplained, Quiet, Closed, LinksOk, TrustOk;
    var a := AnswerPairing(d, accept);
    if d !in s.conns {
      SameLinksIsQuiet(s, s);
      QuietIsExplained(env, s, a, s);
    } else if !accept {
      SameLinksIsQuiet(s, SendRaw(s, d, PairReject));
      ClosingIsQuiet(s, SendRaw(s, d, PairReject), d);
      QuietIsExplained(env, s, a, PairingAnswered(s, d, accept));
    } else {
      var agreed := s.(conns := s.conns[d := s.conns[d].(localOk := true)]);
      ConnectedDevice(env, s, d);
      FinalizeIsExplained(env, s, a, SendRaw(agreed, d, PairAccept), d);
    }
  }

  lemma ConnectedDevice(env: Env, s: State, d: Device)
    requires Base(env, s) && d in s.conns
    ensures env.deviceOf(s.conns[d].key) == d
  {
  }

  lemma DropAfterHandlingIsQuiet(s: State, t: State, c: ConnId, d: Device)
    requires SameLinks(s, t)
    ensures Quiet(s, t) && Quiet(s, TornDown(t, c, d))
  {
    hide AbortedAll, SendsCancelled;
  }

  lemma DeliverIsExplained(env: Env, s: State, c: ConnId, m: Message, luck: DiskLuck)
    requires Base(env, s)
    ensures StepExplained(env, s, Deliver(c, m, luck), Delivered(env, s, c, m, luck))
  {
    hide PairingFinalized, StepExplained, Base, Handled, TornDown, Quiet;
    var a := Deliver(c, m, luck);
    if c !in s.live {
      SameLinksIsQuiet(s, s);
      QuietIsExplained(env, s, a, s);
    } else {
      LiveIsConnected(env, s, c);
      var d := env.deviceOf(s.live[c]);
      if m.PairAccept? {
        PairAcceptHandled(env, s, d, s.live[c], luck);
        FinalizeIsExplained(env, s, a, s.(conns := s.conns[d := s.conns[d].(remoteOk := true)]), d);
      } else {
        HandledKeepsLinks(env, s, d, s.live[c], m, luck);
        DropAfterHandlingIsQuiet(s, Handled(env, s, d, s.live[c], m, luck).0, c, d);
        QuietIsExplained(env, s, a, Delivered(env, s, c, m, luck));
      }
    }
  }

  lemma CommandIsQuiet(env: Env, s: State, d: Device, on: bool)
    ensures Quiet(s, Forgotten(env, s, d)) && Quiet(s, BlockedSet(env, s, d, on)) && Quiet(s, AutoAcceptSet(env, s, d, on))
  {
    hide Quiet, Closed, KeyFor;
    SameLinksIsQuiet(s, s);
    ClosingIsQuiet(s, s, d);
    if KeyFor(env, s, d).Some? {
      var k := KeyFor(env, s, d).value;
      RetrustingIsQuiet(s, s, s.trust - {k});
      ClosingIsQuiet(s, s.(trust := s.trust - {k}), d);
      if k in s.trust {
        var marked := s.trust[k := s.trust[k].(blocked := on)];
        RetrustingIsQuiet(s, s, marked);
        ClosingIsQuiet(s, s.(trust := marked), d);
        RetrustingIsQuiet(s, s, s.trust[k := s.trust[k].(autoAccept := on)]);
      }
    }
  }

  lemma DropIsQuiet(env: Env, s: State, c: ConnId)
    ensures Quiet(s, Step(env, s, Drop(c)))
  {
    hide AbortedAll, SendsCancelled;
  }

  lemma OtherStepIsQuiet(env: Env, s: State, a: Action)
    requires !a.Open? && !a.Deliver? && !a.AnswerPairing?
    ensures Quiet(s, Step(env, s, a))
  {
    hide Quiet, OfferAnswered, TransferCancelled, SendRaw, Closed, Forgotten, BlockedSet, AutoAcceptSet, TornDown;
    SameLinksIsQuiet(s, s);
    match a
    case AnswerOffer(id, accept, opens) =>
      AnswerKeepsLinks(s, id, accept, opens);
      SameLinksIsQuiet(s, Step(env, s, a));
    case CancelTransfer(id) =>
      CancelKeepsLinks(s, id);
      SameLinksIsQuiet(s, Step(env, s, a));
    case Send(d, m) =>
      SendingKeepsLinks(s, d, m);
      SameLinksIsQuiet(s, Step(env, s, a));
    case Drop(c) => DropIsQuiet(env, s, c);
    case Disconnect(d) => ClosingIsQuiet(s, s, d);
    case Forget(d) => CommandIsQuiet(env, s, d, true);
    case SetBlocked(d, on) => CommandIsQuiet(env, s, d, on);
    case SetAutoAccept(d, on) => CommandIsQuiet(env, s, d, on);
    case _ => SameLinksIsQuiet(s, Step(env, s, a));
  }

  lemma StepIsExplained(env: Env, s: State, a: Action)
    requires Base(env, s)
    ensures StepExplained(env, s, a, Step(env, s, a))
  {
    hide StepExplained, Base, Quiet, Opened, Delivered, PairingAnswered;
    match a
    case Open(key, weDialed, expected) => OpenIsExplained(env, s, key, weDialed, expected);
    case Deliver(c, m, luck) => DeliverIsExplained(env, s, c, m, luck);
    case AnswerPairing(d, accept) => AnswerIsExplained(env, s, d, accept);
    case _ =>
      hide Step;
      OtherStepIsQuiet(env, s, a);
      QuietIsExplained(env, s, a, Step(env, s, a));
  }

  // ---- consent along a run ---------------------------------------------------------------------

  ghost predicate Consented(env: Env, s: State, actions: seq<Action>, c: Conn) {
    && (c.localOk ==> UserAcceptedOnce(env, s, actions, c.serial, c.key))
    && (c.remoteOk ==> PeerAgreedOnce(env, s, actions, c.serial, c.key))
    && (c.authorised ==> Entitled(env, s, actions, c.serial, c.key))
  }

  ghost predicate KeyAgreed(env: Env, s: State, actions: seq<Action>, k: Key) {
    exists c: ConnId :: BothAgreed(env, s, actions, c, k)
  }

  lemma StepConsented(env: Env, s: State, actions: seq<Action>, a: Action, c: Conn)
    requires Base(env, After(env, s, actions))
    requires Explained(env, After(env, s, actions), a, c)
    requires forall d :: d in After(env, s, actions).conns ==> Consented(env, s, actions, After(env, s, actions).conns[d])
    ensures Consented(env, s, actions + [a], c)
  {
    hide After, UserAccepted, PeerAgreed, StoredAtOpen, UserAcceptedOnce, PeerAgreedOnce, Stored;
    var before := After(env, s, actions);
    var longer, n := actions + [a], |actions|;
    HistoryGrows(env, s, actions, a, c.serial, c.key);
    NewEvents(env, s, actions, a, c.serial, c.key);
    if !(a.Open? && c.serial == before.next) {
      var d := env.deviceOf(c.key);
      assert before.live[c.serial] == c.key && before.conns[d].serial == c.serial;
    }
  }

  /** The step just taken is itself part of the history. */
  lemma NewEvents(env: Env, s: State, actions: seq<Action>, a: Action, c: ConnId, k: Key)
    ensures var before := After(env, s, actions);
            && (a.Open? && a.key == k && before.next == c && k in before.trust && !before.trust[k].blocked
                ==> Stored(env, s, actions + [a], c, k))
            && (a.AnswerPairing? && a.accept && a.device in before.conns
                && before.conns[a.device].serial == c && before.conns[a.device].key == k
                ==> UserAcceptedOnce(env, s, actions + [a], c, k))
            && (a.Deliver? && a.conn == c && a.message == PairAccept && c in before.live && before.live[c] == k
                ==> PeerAgreedOnce(env, s, actions + [a], c, k))
  {
    hide After;
    var longer, n := actions + [a], |actions|;
    assert longer[..n] == actions && longer[n] == a;
    assert StoredAtOpen(env, s, longer, c, k, n) ==> Stored(env, s, longer, c, k);
    assert UserAccepted(env, s, longer, c, k, n) ==> UserAcceptedOnce(env, s, longer, c, k);
    assert PeerAgreed(env, s, longer, c, k, n) ==> PeerAgreedOnce(env, s, longer, c, k);
  }

  /** Flags and stored keys never outrun the history that justifies them. */
  lemma {:induction false} EveryRunIsConsented(env: Env, s: State, actions: seq<Action>)
    requires Fresh(s)
    ensures var t := After(env, s, actions);
            && (forall d :: d in t.conns ==> Consented(env, s, actions, t.conns[d]))
            && (forall k :: k in t.trust && k !in s.trust ==> KeyAgreed(env, s, actions, k))
    decreases |actions|
  {
    if actions != [] {
      var n := |actions| - 1;
      var shorter, a := actions[..n], actions[n];
      assert actions == shorter + [a];
      EveryRunIsConsented(env, s, shorter);
      EveryRunKeepsInv(env, s, shorter);
      LastStepConsented(env, s, shorter, a);
    }
  }

  lemma LastStepConsented(env: Env, s: State, actions: seq<Action>, a: Action)
    requires Base(env, After(env, s, actions))
    requires forall d :: d in After(env, s, actions).conns ==> Consented(env, s, actions, After(env, s, actions).conns[d])
    requires forall k :: k in After(env, s, actions).trust && k !in s.trust ==> KeyAgreed(env, s, actions, k)
    ensures var t := After(env, s, actions + [a]);
            && (forall d :: d in t.conns ==> Consented(env, s, actions + [a], t.conns[d]))
            && (forall k :: k in t.trust && k !in s.trust ==> KeyAgreed(env, s, actions + [a], k))
  {
    hide Base, Step, Consented, Explained, UserAcceptedOnce, PeerAgreedOnce, Stored;
    var before, t := After(env, s, actions), Step(env, After(env, s, actions), a);
    hide After;
    AfterOneMore(env, s, actions, a);
    StepIsExplained(env, before, a);
    forall d | d in t.conns
      ensures Consented(env, s, actions + [a], t.conns[d])
    {
      StepConsented(env, s, actions, a, t.conns[d]);
    }
    forall k | k in t.trust && k !in s.trust
      ensures KeyAgreed(env, s, actions + [a], k)
    {
      if k in before.trust {
        var c :| BothAgreed(env, s, actions, c, k);
        HistoryGrows(env, s, actions, a, c, k);
        assert BothAgreed(env, s, actions + [a], c, k);
      } else {
        var d :| d in t.conns && t.conns[d].key == k && t.conns[d].localOk && t.conns[d].remoteOk;
        FlagsAreHistory(env, s, actions + [a], t.conns[d]);
        assert BothAgreed(env, s, actions + [a], t.conns[d].serial, k);
      }
    }
  }

  lemma FlagsAreHistory(env: Env, s: State, actions: seq<Action>, c: Conn)
    requires Consented(env, s, actions, c)
    ensures c.localOk && c.remoteOk ==> BothAgreed(env, s, actions, c.serial, c.key)
  {
  }

  /**
   * Text, offers, chunks and answers count only from a peer whose key was stored and not blocked
   * when the connection opened, or whom the user accepted while it agreed: from anyone else they
   * do no more than a broken connection would.
   */
  lemma UninvitedDataOnlyDisconnects(env: Env, s: State, actions: seq<Action>, c: ConnId, m: Message, luck: DiskLuck)
    requires Fresh(s) && !m.AllowedBeforePairing()
    requires c in After(env, s, actions).live
    requires !Entitled(env, s, actions, c, After(env, s, actions).live[c])
    ensures After(env, s, actions + [Deliver(c, m, luck)]) == After(env, s, actions + [Drop(c)])
  {
    EveryRunKeepsInv(env, s, actions);
    EveryRunIsConsented(env, s, actions);
    var t := After(env, s, actions);
    hide After, Entitled, Base, UserAcceptedOnce, PeerAgreedOnce, Handled, TornDown;
    AfterOneMore(env, s, actions, Deliver(c, m, luck));
    AfterOneMore(env, s, actions, Drop(c));
    LiveIsConnected(env, t, c);
    UnauthorisedDataIsRefused(env, t, env.deviceOf(t.live[c]), t.live[c], m, luck);
  }

  lemma UnauthorisedDataIsRefused(env: Env, s: State, d: Device, key: Key, m: Message, luck: DiskLuck)
    requires !m.AllowedBeforePairing() && (d in s.conns ==> !s.conns[d].authorised)
    ensures Handled(env, s, d, key, m, luck) == (s, false)
  {
  }

  /** Every key a run adds to the store was accepted by the user and by its owner on one connection. */
  lemma StoredKeysWereAgreed(env: Env, s: State, actions: seq<Action>, k: Key)
    requires Fresh(s)
    requires k in After(env, s, actions).trust && k !in s.trust
    ensures exists c: ConnId :: BothAgreed(env, s, actions, c, k)
  {
    EveryRunIsConsented(env, s, actions);
    assert KeyAgreed(env, s, actions, k);
  }

  // ---- blocking ------------------------------------------------------------------------------------

  /** Does the user lift the block of key `k`, or forget it, with this action? */
  predicate Pardons(env: Env, s: State, a: Action, k: Key) {
    || (a.SetBlocked? && !a.on && KeyFor(env, s, a.device) == Some(k))
    || (a.Forget? && KeyFor(env, s, a.device) == Some(k))
  }

  ghost predicate Blocked(s: State, k: Key) {
    k in s.trust && s.trust[k].blocked
  }

  lemma FinalizeKeepsBlock(env: Env, s: State, d: Device, k: Key)
    requires Base(env, s) && Blocked(s, k)
    ensures Blocked(PairingFinalized(s, d), k)
  {
    hide LinksOk;
  }

  lemma StepKeepsBlock(env: Env, s: State, a: Action, k: Key)
    requires Base(env, s) && Blocked(s, k) && !Pardons(env, s, a, k)
    ensures Blocked(Step(env, s, a), k)
  {
    hide Base, PairingFinalized, OfferAnswered, TransferCancelled, SendRaw, Handled, AbortedAll, SendsCancelled, KeyFor;
    match a
    case Open(_, _, _) =>
      OpenKeepsTrust(env, s, a.key, a.weDialed, a.expected);
    case Deliver(c, m, luck) =>
      if c in s.live {
        DeliverKeepsBlock(env, s, c, m, luck, k);
      }
    case AnswerPairing(d, accept) =>
      AnswerKeepsBlock(env, s, d, accept, k);
    case AnswerOffer(id, accept, opens) => AnswerKeepsLinks(s, id, accept, opens);
    case CancelTransfer(id) => CancelKeepsLinks(s, id);
    case Send(d, m) => SendingKeepsLinks(s, d, m);
    case _ =>
  }

  lemma OpenKeepsTrust(env: Env, s: State, key: Key, weDialed: bool, expected: Option<Key>)
    ensures Opened(env, s, key, weDialed, expected).trust == s.trust
  {
  }

  lemma AnswerKeepsBlock(env: Env, s: State, d: Device, accept: bool, k: Key)
    requires Base(env, s) && Blocked(s, k)
    ensures Blocked(PairingAnswered(s, d, accept), k)
  {
    hide PairingFinalized, LinksOk, TrustOk, Structure, Faithful;
    if d in s.conns && accept {
      var agreed := s.(conns := s.conns[d := s.conns[d].(localOk := true)]);
      ConnUpdateKeepsLinks(env, s.conns, s.live, s.next, d, agreed.conns[d]);
      FlagsKeepInv(env, s, d, agreed.conns[d]);
      FinalizeKeepsBlock(env, SendRaw(agreed, d, PairAccept), d, k);
    }
  }

  lemma DeliverKeepsBlock(env: Env, s: State, c: ConnId, m: Message, luck: DiskLuck, k: Key)
    requires Base(env, s) && Blocked(s, k) && c in s.live
    ensures Blocked(Delivered(env, s, c, m, luck), k)
  {
    hide Base, Handled, PairingFinalized, AbortedAll, SendsCancelled;
    LiveIsConnected(env, s, c);
    var d := env.deviceOf(s.live[c]);
    if m.PairAccept? {
      PairAcceptHandled(env, s, d, s.live[c], luck);
      var remote := s.conns[d].(remoteOk := true);
      FlagsKeepInv(env, s, d, remote);
      FinalizeKeepsBlock(env, s.(conns := s.conns[d := remote]), d, k);
    } else {
      HandledKeepsLinks(env, s, d, s.live[c], m, luck);
    }
  }

  /** No action of the run lifts the block. */
  predicate NeverPardoned(env: Env, s: State, actions: seq<Action>, k: Key)
    decreases |actions|
  {
    actions == [] ||
    var n := |actions| - 1;
    NeverPardoned(env, s, actions[..n], k) && !Pardons(env, After(env, s, actions[..n]), actions[n], k)
  }

  /** Only the user lifts a block: no peer can pair, connect or wait its way out of it. */
  lemma {:induction false} BlockedStaysOut(env: Env, s: State, actions: seq<Action>, k: Key, weDialed: bool, expected: Option<Key>)
    requires Fresh(s) && Blocked(s, k) && NeverPardoned(env, s, actions, k)
    ensures Blocked(After(env, s, actions), k)
    ensures var t := After(env, s, actions); Opened(env, t, k, weDialed, expected) == t
    decreases |actions|
  {
    if actions != [] {
      hide Base, Step;
      var n := |actions| - 1;
      BlockedStaysOut(env, s, actions[..n], k, weDialed, expected);
      EveryRunKeepsInv(env, s, actions[..n]);
      StepKeepsBlock(env, After(env, s, actions[..n]), actions[n], k);
    }
  }

  // ---- commands name a device ---------------------------------------------------------------

  /** The announced devices: at most 128, each with a key of its own. */
  ghost predicate PeersOk(env: Env, peers: map<Device, Key>) {
    |peers| <= MAX_PEERS && forall d :: d in peers ==> env.deviceOf(peers[d]) == d
  }

  lemma BeaconKeepsPeers(env: Env, s: State, key: Key)
    requires PeersOk(env, s.peers)
    ensures PeersOk(env, BeaconHeard(env, s, key).peers)
  {
  }

  lemma ExpiryKeepsPeers(env: Env, peers: map<Device, Key>, gone: set<Device>)
    requires PeersOk(env, peers)
    ensures PeersOk(env, peers - gone)
  {
    assert (peers - gone).Keys == peers.Keys - gone;
    SubsetCardinality(peers.Keys - gone, peers.Keys);
  }

  lemma DeliverKeepsPeers(env: Env, s: State, c: ConnId, m: Message, luck: DiskLuck)
    ensures Delivered(env, s, c, m, luck).peers == s.peers
  {
    hide Handled, PairingFinalized;
    if c in s.live {
      var d, key := env.deviceOf(s.live[c]), s.live[c];
      if m.PairAccept? {
        PairAcceptHandled(env, s, d, key, luck);
        FinalizingKeepsPeers(s, d);
      } else {
        HandledKeepsLinks(env, s, d, key, m, luck);
      }
    }
  }

  lemma FinalizingKeepsPeers(s: State, d: Device)
    ensures PeerAccepted(s, d).peers == s.peers && PairingAnswered(s, d, true).peers == s.peers
    ensures PairingAnswered(s, d, false).peers == s.peers
  {
    hide TrustAdded;
  }

  lemma StepKeepsPeers(env: Env, s: State, a: Action)
    requires PeersOk(env, s.peers)
    ensures PeersOk(env, Step(env, s, a).peers)
  {
    hide PeersOk, Delivered, OfferAnswered, TransferCancelled, PairingAnswered, TransfersFailed, BeaconHeard;
    match a
    case Deliver(c, m, luck) => DeliverKeepsPeers(env, s, c, m, luck);
    case Drop(c) => if c in s.live { TearingDownKeepsPeers(env, s, c); }
    case AnswerPairing(d, accept) => FinalizingKeepsPeers(s, d);
    case AnswerOffer(id, accept, opens) => AnswerKeepsLinks(s, id, accept, opens);
    case CancelTransfer(id) => CancelKeepsLinks(s, id);
    case Beacon(key) => BeaconKeepsPeers(env, s, key);
    case ExpirePeers(gone) => ExpiryKeepsPeers(env, s.peers, gone);
    case _ =>
  }

  lemma TearingDownKeepsPeers(env: Env, s: State, c: ConnId)
    requires c in s.live
    ensures TornDown(s, c, env.deviceOf(s.live[c])).peers == s.peers
  {
    hide AbortedAll, SendsCancelled;
  }

  lemma {:induction false} EveryRunKeepsPeers(env: Env, s: State, actions: seq<Action>)
    requires Fresh(s)
    ensures PeersOk(env, After(env, s, actions).peers)
    decreases |actions|
  {
    if actions != [] {
      hide Step;
      var n := |actions| - 1;
      EveryRunKeepsPeers(env, s, actions[..n]);
      StepKeepsPeers(env, After(env, s, actions[..n]), actions[n]);
    }
  }

  /** The store's order picks one of the keys it is asked about. */
  ghost predicate Picks(env: Env) {
    forall keys: set<Key> :: keys != {} ==> env.first(keys) in keys
  }

  /** In every run the key looked up for a device is a key of that device. */
  lemma LookupFindsItsDevice(env: Env, s: State, actions: seq<Action>, d: Device)
    requires Fresh(s) && Picks(env)
    ensures var key := KeyFor(env, After(env, s, actions), d); key.Some? ==> env.deviceOf(key.value) == d
  {
    EveryRunKeepsInv(env, s, actions);
    EveryRunKeepsPeers(env, s, actions);
    var t := After(env, s, actions);
    hide After, Structure, Faithful, TrustOk, Orderly;
    if d !in t.conns && d !in t.peers && StoredAs(env, t.trust, d) != {} {
      assert env.first(StoredAs(env, t.trust, d)) in StoredAs(env, t.trust, d);
    }
  }

  /** Nothing about key `k` or about any device but `d` differs. */
  predicate OnlyTouches(s: State, t: State, d: Device, k: Key) {
    && (k in t.trust <==> k in s.trust) && (k in s.trust ==> t.trust[k] == s.trust[k])
    && t.conns.Keys == s.conns.Keys && (forall e :: e in s.conns && e != d ==> t.conns[e] == s.conns[e])
    && t.inbox == s.inbox && t.live == s.live
  }

  lemma ClosingOnlyTouches(s: State, trust: map<Key, Trusted>, d: Device, k: Key)
    requires (k in trust <==> k in s.trust) && (k in s.trust ==> trust[k] == s.trust[k])
    ensures OnlyTouches(s, s.(trust := trust), d, k) && OnlyTouches(s, Closed(s.(trust := trust), d), d, k)
  {
    if d in s.conns {
      assert s.conns[d := s.conns[d].(closed := true)].Keys == s.conns.Keys;
    }
  }

  lemma CommandsOnlyTouch(env: Env, s: State, d: Device, on: bool, k: Key)
    requires KeyFor(env, s, d) != Some(k)
    ensures OnlyTouches(s, Forgotten(env, s, d), d, k)
    ensures OnlyTouches(s, BlockedSet(env, s, d, on), d, k)
    ensures OnlyTouches(s, AutoAcceptSet(env, s, d, on), d, k)
  {
    hide KeyFor, OnlyTouches, Closed;
    ClosingOnlyTouches(s, s.trust, d, k);
    if KeyFor(env, s, d).Some? {
      var key := KeyFor(env, s, d).value;
      ClosingOnlyTouches(s, s.trust - {key}, d, k);
      if key in s.trust {
        ClosingOnlyTouches(s, s.trust[key := s.trust[key].(blocked := on)], d, k);
        ClosingOnlyTouches(s, s.trust[key := s.trust[key].(autoAccept := on)], d, k);
      }
    }
  }

  /** Forgetting, blocking or trusting a device never changes a key or a connection of another one. */
  lemma CommandsActOnTheirDevice(env: Env, s: State, actions: seq<Action>, d: Device, on: bool, k: Key)
    requires Fresh(s) && Picks(env) && env.deviceOf(k) != d
    ensures var t := After(env, s, actions);
            && OnlyTouches(t, Forgotten(env, t, d), d, k)
            && OnlyTouches(t, BlockedSet(env, t, d, on), d, k)
            && OnlyTouches(t, AutoAcceptSet(env, t, d, on), d, k)
  {
    hide *;
    LookupFindsItsDevice(env, s, actions, d);
    CommandsOnlyTouch(env, After(env, s, actions), d, on, k);
  }
}
