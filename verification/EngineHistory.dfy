/** What the tables of a running engine say about the actions that led there. */
module EngineHistory {
  import opened Prelude
  import opened Transfers
  import opened Engines
  import opened EngineInvariant
  import opened EngineConsent
  import opened EngineReplies
  import opened EngineViews
  import Naming

  // ---- the machines, run ---------------------------------------------------------------

  /** The texts brought by a run, in order, each with the device it came from. */
  ghost function TextsIn(env: Env, s: State, actions: seq<Action>): seq<(Device, TransferId)>
    decreases |actions|
  {
    if actions == [] then [] else
      var n := |actions| - 1;
      TextsIn(env, s, actions[..n]) + TextOf(env, After(env, s, actions[..n]), actions[n])
  }

  /** After every run the texts are those that arrived on connections authorised at that point, in order. */
  lemma {:induction false} EveryRunRecordsTexts(env: Env, s: State, actions: seq<Action>)
    requires Fresh(s)
    ensures After(env, s, actions).texts == s.texts + TextsIn(env, s, actions)
    decreases |actions|
  {
    hide Step, Structured, TextOf;
    if actions != [] {
      var n := |actions| - 1;
      EveryRunRecordsTexts(env, s, actions[..n]);
      EveryRunKeepsInv(env, s, actions[..n]);
      StepTransfer(env, After(env, s, actions[..n]), actions[n], 0);
    }
  }

  /** A text of an authorised peer is recorded once and answered with exactly one acknowledgement. */
  lemma TextIsTakenAndAcknowledged(env: Env, s: State, actions: seq<Action>, c: ConnId, id: TransferId, luck: DiskLuck)
    requires Fresh(s) && c in After(env, s, actions).live
    requires var t := After(env, s, actions);
             var d := env.deviceOf(t.live[c]); d in t.conns && t.conns[d].authorised
    ensures var t, after := After(env, s, actions), After(env, s, actions + [Deliver(c, Text(id), luck)]);
            var d := env.deviceOf(t.live[c]);
            && after.texts == t.texts + [(d, id)]
            && after.sent == t.sent + if t.conns[d].closed then [] else [Sent(d, TextAck(id))]
  {
    EveryRunKeepsInv(env, s, actions);
    var t, a := After(env, s, actions), Deliver(c, Text(id), luck);
    hide Structured, After, Step;
    AfterOneMore(env, s, actions, a);
    StepTransfer(env, t, a, 0);
    StepSays(env, t, a);
  }

  /** Send `id` as its starts, ends, signals and cancellations have left it. */
  ghost function SendIn(env: Env, s: State, actions: seq<Action>, id: TransferId): Option<Outgoing>
    decreases |actions|
  {
    if actions == [] then Find(s.outgoing, id) else
      var n := |actions| - 1;
      var before := After(env, s, actions[..n]);
      match SendIn(env, s, actions[..n], id)
      case None => if actions[n].StartSend? && actions[n].transfer == id then Some(Outgoing(actions[n].device, [], false)) else None
      case Some(o) =>
        if actions[n].StartSend? && actions[n].transfer == id then Some(Outgoing(actions[n].device, [], false))
        else if actions[n] == EndSend(id) then None
        else Some(Outgoing(o.to, Queued(o.signals, SignalFor(env, before, actions[n], id)),
                           o.cancelled || actions[n] == CancelTransfer(id) || Leaves(env, before, actions[n], o.to)))
  }

  /**
   * In every run each send has queued exactly the answers that named it since it started, in order, and is
   * flagged exactly when the user cancelled it or its device left.
   */
  lemma {:induction false} EveryRunQueuesSignals(env: Env, s: State, actions: seq<Action>, id: TransferId)
    requires Fresh(s)
    ensures Find(After(env, s, actions).outgoing, id) == SendIn(env, s, actions, id)
    decreases |actions|
  {
    hide Step, Structured, SignalFor, Leaves;
    if actions != [] {
      var n := |actions| - 1;
      EveryRunQueuesSignals(env, s, actions[..n], id);
      EveryRunKeepsInv(env, s, actions[..n]);
      StepTransfer(env, After(env, s, actions[..n]), actions[n], id);
    }
  }

  // ---- what the user allowed ------------------------------------------------------------------

  /** Action `j` is the user switching automatic acceptance of key `k` on. */
  ghost predicate SwitchedOn(env: Env, s: State, actions: seq<Action>, k: Key, j: nat) {
    && j < |actions| && actions[j].SetAutoAccept? && actions[j].on
    && KeyFor(env, After(env, s, actions[..j]), actions[j].device) == Some(k)
  }

  ghost predicate EverSwitchedOn(env: Env, s: State, actions: seq<Action>, k: Key) {
    (k in s.trust && s.trust[k].autoAccept) || exists j :: SwitchedOn(env, s, actions, k, j)
  }

  lemma SwitchedOnGrows(env: Env, s: State, actions: seq<Action>, k: Key)
    requires actions != []
    ensures var n := |actions| - 1;
            && (EverSwitchedOn(env, s, actions[..n], k) ==> EverSwitchedOn(env, s, actions, k))
            && (SwitchedOn(env, s, actions, k, n) ==> EverSwitchedOn(env, s, actions, k))
  {
    hide After, KeyFor;
    var n := |actions| - 1;
    if j: nat :| SwitchedOn(env, s, actions[..n], k, j) {
      assert actions[..n][..j] == actions[..j];
      assert SwitchedOn(env, s, actions, k, j);
    }
  }

  /** In every run a key accepts offers by itself only if it did at the start or the user switched that on. */
  lemma {:induction false} AutoAcceptIsTheUsers(env: Env, s: State, actions: seq<Action>, k: Key)
    requires Fresh(s) && AcceptsAlone(After(env, s, actions), k)
    ensures EverSwitchedOn(env, s, actions, k)
    decreases |actions|
  {
    if actions != [] {
      var n := |actions| - 1;
      var before := After(env, s, actions[..n]);
      EveryRunKeepsInv(env, s, actions[..n]);
      StepTrust(env, before, actions[n], k);
      hide Structure, Base, Step, KeyFor, Joins, EverSwitchedOn;
      SwitchedOnGrows(env, s, actions, k);
      if AcceptsAlone(before, k) {
        AutoAcceptIsTheUsers(env, s, actions[..n], k);
      } else {
        assert SwitchedOn(env, s, actions, k, n);
      }
    }
  }

  /** A key just stored, or left alone by the user, is not blocked and accepts nothing by itself. */
  lemma NewKeysAreAskedAbout(env: Env, s: State, actions: seq<Action>, a: Action, k: Key)
    requires Fresh(s) && k !in After(env, s, actions).trust && k in After(env, s, actions + [a]).trust
    ensures After(env, s, actions + [a]).trust[k] == Trusted(false, false)
  {
    EveryRunKeepsInv(env, s, actions);
    AfterOneMore(env, s, actions, a);
    StepTrust(env, After(env, s, actions), a, k);
    hide Structure, Base, After, Step, Joins;
  }

  /** A stored key stays until the user forgets it. */
  lemma StoredUntilForgotten(env: Env, s: State, actions: seq<Action>, a: Action, k: Key)
    requires Fresh(s) && k in After(env, s, actions).trust
    ensures k !in After(env, s, actions + [a]).trust <==> a.Forget? && KeyFor(env, After(env, s, actions), a.device) == Some(k)
  {
    EveryRunKeepsInv(env, s, actions);
    AfterOneMore(env, s, actions, a);
    StepTrust(env, After(env, s, actions), a, k);
    hide Structure, Base, After, Step, Joins, KeyFor;
  }

  // ---- who accepted a transfer ------------------------------------------------------------------

  /** Action `j` took in the offer that is now transfer `id`, which has been in the table ever since. */
  ghost predicate Began(env: Env, s: State, actions: seq<Action>, id: TransferId, j: nat) {
    && j < |actions| && Begins(env, After(env, s, actions[..j]), actions[j], id)
    && forall n :: j < n <= |actions| ==> id in After(env, s, actions[..n]).inbox.incoming
  }

  /** The offer came under a key that accepts by itself, or the user has accepted it since. */
  ghost predicate AcceptanceOf(env: Env, s: State, actions: seq<Action>, id: TransferId, j: nat) {
    && Began(env, s, actions, id, j)
    && (|| (var before := After(env, s, actions[..j]); AcceptsAlone(before, before.live[actions[j].conn]))
        || exists i :: j < i < |actions| && actions[i] == AnswerOffer(id, true, true))
  }

  lemma AcceptanceGrows(env: Env, s: State, actions: seq<Action>, id: TransferId, j: nat)
    requires actions != [] && id in After(env, s, actions).inbox.incoming
    ensures var n := |actions| - 1;
            && (Began(env, s, actions[..n], id, j) ==> Began(env, s, actions, id, j))
            && (AcceptanceOf(env, s, actions[..n], id, j) ==> AcceptanceOf(env, s, actions, id, j))
            && (Began(env, s, actions[..n], id, j) && actions[n] == AnswerOffer(id, true, true) ==> AcceptanceOf(env, s, actions, id, j))
  {
    hide After, Begins, AcceptsAlone;
    var n := |actions| - 1;
    assert actions[..|actions|] == actions;
    if Began(env, s, actions[..n], id, j) {
      assert actions[..n][..j] == actions[..j];
      forall m | j < m <= |actions|
        ensures id in After(env, s, actions[..m]).inbox.incoming
      {
        if m <= n {
          assert actions[..n][..m] == actions[..m];
        }
      }
      if i :| j < i < n && actions[..n][i] == AnswerOffer(id, true, true) {
        assert actions[i] == AnswerOffer(id, true, true);
      }
    }
  }

  lemma JustBegan(env: Env, s: State, actions: seq<Action>, id: TransferId)
    requires actions != [] && id in After(env, s, actions).inbox.incoming
    requires var n := |actions| - 1; Begins(env, After(env, s, actions[..n]), actions[n], id)
    ensures Began(env, s, actions, id, |actions| - 1)
  {
    hide After, Begins;
    assert actions[..|actions|] == actions;
  }

  /** Every incoming transfer began with an offer; it is accepted only by the user or the key's setting. */
  lemma {:induction false} AcceptedByUserOrSetting(env: Env, s: State, actions: seq<Action>, id: TransferId) returns (j: nat)
    requires Fresh(s) && id in After(env, s, actions).inbox.incoming
    ensures Began(env, s, actions, id, j)
    ensures After(env, s, actions).inbox.incoming[id].accepted ==> AcceptanceOf(env, s, actions, id, j)
    decreases |actions|
  {
    hide Step, Structured, Begins, Ends, AcceptsAlone, Began, AcceptanceOf;
    var n := |actions| - 1;
    var before := After(env, s, actions[..n]);
    EveryRunKeepsInv(env, s, actions[..n]);
    StepTransfer(env, before, actions[n], id);
    if id in before.inbox.incoming {
      j := AcceptedByUserOrSetting(env, s, actions[..n], id);
      AcceptanceGrows(env, s, actions, id, j);
    } else {
      j := n;
      JustBegan(env, s, actions, id);
      assert AcceptsAlone(before, before.live[actions[n].conn]) ==> AcceptanceOf(env, s, actions, id, n) by {
        SettingAccepts(env, s, actions, id, n);
      }
    }
  }

  lemma SettingAccepts(env: Env, s: State, actions: seq<Action>, id: TransferId, j: nat)
    requires Began(env, s, actions, id, j)
    ensures var before := After(env, s, actions[..j]);
            actions[j].Deliver? && actions[j].conn in before.live
            && (AcceptsAlone(before, before.live[actions[j].conn]) ==> AcceptanceOf(env, s, actions, id, j))
  {
    hide After, AcceptsAlone;
  }

  /** Nothing is published that neither the user nor a setting of the user's accepted. */
  lemma {:induction false} PublishedWasAccepted(env: Env, s: State, actions: seq<Action>, p: Published) returns (n: nat, j: nat)
    requires Fresh(s) && p in After(env, s, actions).inbox.published
    ensures n < |actions| && AcceptanceOf(env, s, actions[..n], p.transfer.id, j)
    decreases |actions|
  {
    hide Step, Structured, AcceptanceOf;
    var last := |actions| - 1;
    var before := After(env, s, actions[..last]);
    EveryRunKeepsInv(env, s, actions[..last]);
    StepTransfer(env, before, actions[last], p.transfer.id);
    if p in before.inbox.published {
      n, j := PublishedWasAccepted(env, s, actions[..last], p);
      assert actions[..last][..n] == actions[..n];
    } else {
      n := last;
      FileWasAccepted(env, before, actions[last], p);
      j := AcceptedByUserOrSetting(env, s, actions[..last], p.transfer.id);
    }
  }

  lemma FileWasAccepted(env: Env, s: State, a: Action, p: Published)
    requires Structured(env, s) && p in FileOf(env, s, a)
    ensures p.transfer.id in s.inbox.incoming && s.inbox.incoming[p.transfer.id].accepted
  {
    StructuredIds(env, s);
    hide Structured, Naming.UniqueName;
  }

  // ---- admission --------------------------------------------------------------------------------

  /** Action `j` opened a connection with key `k`, by the rules as they stood then. */
  ghost predicate AdmittedAt(env: Env, s: State, actions: seq<Action>, k: Key, j: nat) {
    && j < |actions| && actions[j].Open? && actions[j].key == k
    && Admitted(env, After(env, s, actions[..j]), k, actions[j].expected)
  }

  /**
   * In every run each connection was admitted: its key was the expected one, and it was stored and not
   * blocked, or pairing was open to new devices.
   */
  lemma {:induction false} EveryConnectionWasAdmitted(env: Env, s: State, actions: seq<Action>, d: Device) returns (j: nat)
    requires Fresh(s) && d in After(env, s, actions).conns
    ensures AdmittedAt(env, s, actions, After(env, s, actions).conns[d].key, j)
    decreases |actions|
  {
    hide Step, Structure, Base, Admitted, Leaves, Joins, LocallyAgreed, RemotelyAgreed, Shuts;
    var n := |actions| - 1;
    var before := After(env, s, actions[..n]);
    EveryRunKeepsInv(env, s, actions[..n]);
    StepConn(env, before, actions[n], d);
    if d in before.conns {
      j := EveryConnectionWasAdmitted(env, s, actions[..n], d);
      assert actions[..n][..j] == actions[..j];
    } else {
      j := n;
    }
  }

  /** No action of the run changes the size limit. */
  predicate LimitStands(actions: seq<Action>, limit: nat) {
    forall j :: 0 <= j < |actions| && actions[j].Configure? ==> actions[j].sizeLimit == limit
  }

  /** While the user's size limit stands, no transfer and no published file exceeds it. */
  lemma {:induction false} NothingExceedsTheLimit(env: Env, s: State, actions: seq<Action>, limit: nat, id: TransferId)
    requires Fresh(s) && s.sizeLimit == limit > 0
    requires LimitStands(actions, limit)
    ensures After(env, s, actions).sizeLimit == limit
    ensures id in After(env, s, actions).inbox.incoming ==> After(env, s, actions).inbox.incoming[id].size <= limit
    decreases |actions|
  {
    if actions != [] {
      var n := |actions| - 1;
      NothingExceedsTheLimit(env, s, actions[..n], limit, id);
      EveryRunKeepsInv(env, s, actions[..n]);
      StepTransfer(env, After(env, s, actions[..n]), actions[n], id);
      StepKeepsLimit(env, After(env, s, actions[..n]), actions[n]);
      hide Step, Structured, Ends, Heard, OwnChunk, AcceptsAlone, Naming.Sanitized, Lower;
    }
  }

  lemma FileHasItsSize(env: Env, s: State, a: Action, p: Published)
    requires p in FileOf(env, s, a)
    ensures a.Deliver? && a.message.FileChunk? && a.message.id in s.inbox.incoming
    ensures p.transfer.size == s.inbox.incoming[a.message.id].size
  {
    hide Naming.UniqueName, Completes, Heard;
  }

  lemma AfterLast(env: Env, s: State, actions: seq<Action>)
    requires actions != []
    ensures var n := |actions| - 1; After(env, s, actions) == Step(env, After(env, s, actions[..n]), actions[n])
  {
    hide Step;
  }

  lemma {:induction false} NoFileExceedsTheLimit(env: Env, s: State, actions: seq<Action>, limit: nat, p: Published)
    requires Fresh(s) && s.sizeLimit == limit > 0 && p in After(env, s, actions).inbox.published
    requires LimitStands(actions, limit)
    ensures p.transfer.size <= limit
    decreases |actions|
  {
    hide Step, Structured, NextTransfer, NextSend, TextOf, FileOf, Fresh, After;
    if actions == [] {
      StartsWithoutFiles(env, s, p);
    } else {
      var n := |actions| - 1;
      var before := After(env, s, actions[..n]);
      AfterLast(env, s, actions);
      EveryRunKeepsInv(env, s, actions[..n]);
      StepTransfer(env, before, actions[n], 0);
      if p in before.inbox.published {
        NoFileExceedsTheLimit(env, s, actions[..n], limit, p);
      } else {
        FileHasItsSize(env, before, actions[n], p);
        NothingExceedsTheLimit(env, s, actions[..n], limit, actions[n].message.id);
      }
    }
  }

  lemma StartsWithoutFiles(env: Env, s: State, p: Published)
    requires Fresh(s)
    ensures p !in After(env, s, []).inbox.published
  {
  }

  lemma InboxKeepsLimit(env: Env, s: State, c: ConnId, m: Message, luck: DiskLuck)
    requires Structured(env, s) && c in s.live && Heard(env, s, c, m)
    ensures var d := env.deviceOf(s.live[c]);
            && (m.FileOffer? ==> OfferReceived(s, d, s.live[c], m, luck).sizeLimit == s.sizeLimit)
            && (m.FileChunk? ==> ChunkReceived(env, s, d, s.live[c], m, luck).sizeLimit == s.sizeLimit)
  {
    hide Structured, OfferReceived, ChunkReceived, Heard, OwnChunk, TakenIn, AcceptsAlone, Unwritable, Completes, Naming.Sanitized,
         Lower, FileOf;
    if m.FileOffer? {
      OfferViews(env, s, env.deviceOf(s.live[c]), s.live[c], m, luck);
    } else if m.FileChunk? {
      ChunkViews(env, s, c, m, luck);
    }
  }

  lemma HandledKeepsLimit(env: Env, s: State, c: ConnId, m: Message, luck: DiskLuck)
    requires Structured(env, s) && c in s.live
    ensures Handled(env, s, env.deviceOf(s.live[c]), s.live[c], m, luck).0.sizeLimit == s.sizeLimit
  {
    hide Base, Structure, Handled, OfferReceived, ChunkReceived, Heard, Signals;
    if m.PairReject? || !Heard(env, s, c, m) {
      HandledKeepsSilence(env, s, c, m, luck);
    } else if m.FileOffer? || m.FileChunk? {
      HandledOffersAndChunks(env, s, c, m, luck);
      InboxKeepsLimit(env, s, c, m, luck);
    } else {
      HandledPlain(env, s, c, m, luck);
    }
  }

  lemma StepKeepsLimit(env: Env, s: State, a: Action)
    requires Structured(env, s)
    ensures Step(env, s, a).sizeLimit == if a.Configure? then a.sizeLimit else s.sizeLimit
  {
    StructuredIds(env, s);
    hide Structured, Handled, AbortedAll, SendsCancelled, OfferAnswered, IncomingAborted, TransferCancelled;
    if Unrelated(a) {
      UnrelatedStep(env, s, a);
    } else {
      hide Unrelated;
      match a
      case Deliver(c, m, luck) => if c in s.live { HandledKeepsLimit(env, s, c, m, luck); }
      case AnswerOffer(id, accept, opens) => AnswerViews(s, id, accept, opens);
      case CancelTransfer(id) => CancelKeepsLimit(s, id);
      case _ =>
    }
  }

  lemma CancelKeepsLimit(s: State, id: TransferId)
    ensures TransferCancelled(s, id).sizeLimit == s.sizeLimit
  {
    hide AbortedAll;
  }

  // ---- announced devices ---------------------------------------------------------------------------

  /** A device is listed from its beacon until it expires; a full list takes no new one. */
  function NextPeer(env: Env, s: State, a: Action, d: Device): Option<Key> {
    if a.Beacon? && env.deviceOf(a.key) == d && (d in s.peers || |s.peers| < 128) then Some(a.key)
    else if a.ExpirePeers? && d in a.gone then None
    else Find(s.peers, d)
  }

  lemma OtherStepsKeepPeers(env: Env, s: State, a: Action)
    requires !a.Beacon? && !a.ExpirePeers?
    ensures Step(env, s, a).peers == s.peers
  {
    hide Delivered, OfferAnswered, TransferCancelled, TornDown, Opened, PairingAnswered, SendTo, Closed, Forgotten, BlockedSet,
         AutoAcceptSet;
    match a
    case Deliver(c, m, luck) => DeliverKeepsPeers(env, s, c, m, luck);
    case Drop(c) => if c in s.live { TearingDownKeepsPeers(env, s, c); }
    case Open(key, weDialed, expected) => OpenKeepsPeers(env, s, key, weDialed, expected);
    case AnswerPairing(e, accept) => FinalizingKeepsPeers(s, e);
    case AnswerOffer(id, accept, opens) => AnswerKeepsLinks(s, id, accept, opens);
    case CancelTransfer(id) => CancelKeepsLinks(s, id);
    case Send(e, m) => SendToViews(s, e, m);
    case Disconnect(e) => CommandFrame(env, s, e, true);
    case Forget(e) => CommandFrame(env, s, e, true);
    case SetBlocked(e, on) => CommandFrame(env, s, e, on);
    case SetAutoAccept(e, on) => CommandFrame(env, s, e, on);
    case _ =>
  }

  lemma StepPeer(env: Env, s: State, a: Action, d: Device)
    ensures Find(Step(env, s, a).peers, d) == NextPeer(env, s, a, d)
  {
    if !a.Beacon? && !a.ExpirePeers? {
      hide Step;
      OtherStepsKeepPeers(env, s, a);
    } else {
      hide Delivered, OfferAnswered, TransferCancelled, TornDown, Opened, PairingAnswered, SendTo, Closed, Forgotten, BlockedSet,
           AutoAcceptSet;
    }
  }

  lemma OpenKeepsPeers(env: Env, s: State, key: Key, weDialed: bool, expected: Option<Key>)
    ensures Opened(env, s, key, weDialed, expected).peers == s.peers
  {
  }

  /** The announcement of `d` that stands after the run, if any. */
  ghost function Announced(env: Env, s: State, actions: seq<Action>, d: Device): Option<Key>
    decreases |actions|
  {
    if actions == [] then None else
      var n := |actions| - 1;
      var before := After(env, s, actions[..n]);
      if actions[n].Beacon? && env.deviceOf(actions[n].key) == d && (d in before.peers || |before.peers| < 128) then Some(actions[n].key)
      else if actions[n].ExpirePeers? && d in actions[n].gone then None
      else Announced(env, s, actions[..n], d)
  }

  /**
   * After every run a user command on a device acts on the key its connection proved; without a connection on
   * the key it last announced; and only without that on a stored one.
   */
  lemma {:induction false} CommandsPreferTheProvedKey(env: Env, s: State, actions: seq<Action>, d: Device)
    requires Fresh(s)
    ensures var t := After(env, s, actions);
            && Find(t.peers, d) == Announced(env, s, actions, d)
            && (d in t.conns ==> KeyFor(env, t, d) == Some(t.conns[d].key))
            && (d !in t.conns && Announced(env, s, actions, d).Some? ==> KeyFor(env, t, d) == Announced(env, s, actions, d))
    decreases |actions|
  {
    hide Step, StoredAs;
    if actions != [] {
      var n := |actions| - 1;
      CommandsPreferTheProvedKey(env, s, actions[..n], d);
      StepPeer(env, After(env, s, actions[..n]), actions[n], d);
    }
  }

  // ---- a shut connection -------------------------------------------------------------------------

  lemma NothingToldWhenClosed(s: State, d: Device)
    requires d in s.conns && s.conns[d].closed
    ensures forall e, m, n :: Sent(d, m) !in Told(s, e, n)
  {
  }

  lemma NoReplyWhenClosed(env: Env, s: State, c: ConnId, m: Message, luck: DiskLuck, d: Device, x: Message)
    requires c in s.live && d in s.conns && s.conns[d].closed
    ensures Sent(d, x) !in Replies(env, s, c, m, luck)
  {
    NothingToldWhenClosed(s, d);
    hide Told, OwnChunk, Unwritable, Completes, TakenIn, AcceptsAlone;
  }

  /** Once the user has shut a connection nothing goes out on it, however long its loop still runs. */
  lemma ShutConnectionIsSilent(env: Env, s: State, a: Action, d: Device, m: Message)
    requires Structured(env, s) && d in s.conns && (s.conns[d].closed || Shuts(a, d))
    ensures d in Step(env, s, a).conns ==> Step(env, s, a).conns[d].closed
    ensures s.conns[d].closed ==> Sent(d, m) !in Says(env, s, a)
  {
    hide Base, Structure, Step, Replies, Told, Leaves, Joins, LocallyAgreed, RemotelyAgreed;
    StepConn(env, s, a, d);
    if s.conns[d].closed {
      NothingToldWhenClosed(s, d);
      if a.Deliver? && a.conn in s.live {
        NoReplyWhenClosed(env, s, a.conn, a.message, a.luck, d, m);
      }
    }
  }
}
