/** Pairing between two nodes joined by two first-in-first-out channels, whatever their platforms. */
module Pairing {
  import opened Prelude

  /** What one node knows about pairing on this connection. */
  datatype View = View(localOk: bool, remoteOk: bool, authorised: bool)

  /** Messages as pairing sees them: the agreement, data that needs authorisation, and the rest. */
  datatype Packet = Agree | Data | Chatter

  /** One end: its view, whether its store can take the peer's key, and what is on its way to it. */
  datatype End = End(view: View, room: bool, inbox: seq<Packet>, refused: bool)

  /** `near` is the end that acts. */
  datatype Pair = Pair(near: End, far: End)

  function Swap(p: Pair): Pair {
    Pair(p.far, p.near)
  }

  function Finalized(v: View, room: bool): View {
    if v.localOk && v.remoteOk && !v.authorised && room then v.(authorised := true) else v
  }

  function UserAccepts(v: View, room: bool): View {
    Finalized(v.(localOk := true), room)
  }

  function PeerAgrees(v: View, room: bool): View {
    Finalized(v.(remoteOk := true), room)
  }

  function Takes(v: View, room: bool, p: Packet): View {
    if p.Agree? then PeerAgrees(v, room) else v
  }

  /** Packets an end may emit besides its agreement: data only when it is authorised. */
  predicate Permitted(v: View, packets: seq<Packet>) {
    forall p :: p in packets ==> p.Chatter? || (p.Data? && v.authorised)
  }

  datatype Move =
    | Accept
    | Send(packets: seq<Packet>)
    | Receive(replies: seq<Packet>)

  function Posted(p: Pair, packets: seq<Packet>): Pair {
    p.(far := p.far.(inbox := p.far.inbox + packets))
  }

  function Moved(p: Pair, m: Move): Pair {
    var v := p.near.view;
    match m
    case Accept => Posted(p.(near := p.near.(view := UserAccepts(v, p.near.room))), [Agree])
    case Send(packets) => if Permitted(v, packets) then Posted(p, packets) else p
    case Receive(replies) =>
      if p.near.inbox == [] then p else
        var head := p.near.inbox[0];
        var w := Takes(v, p.near.room, head);
        var taken := p.(near := p.near.(view := w, inbox := p.near.inbox[1..],
                                        refused := p.near.refused || (head.Data? && !v.authorised)));
        if Permitted(w, replies) then Posted(taken, replies) else taken
  }

  datatype Action = Action(byFar: bool, move: Move)

  function Step(p: Pair, a: Action): Pair {
    if a.byFar then Swap(Moved(Swap(p), a.move)) else Moved(p, a.move)
  }

  function After(p: Pair, actions: seq<Action>): Pair
    decreases |actions|
  {
    if actions == [] then p else Step(After(p, actions[..|actions| - 1]), actions[|actions| - 1])
  }

  const Unpaired := View(false, false, false)

  function Start(nearRoom: bool, farRoom: bool): Pair {
    Pair(End(Unpaired, nearRoom, [], false), End(Unpaired, farRoom, [], false))
  }

  // ---- the invariant -----------------------------------------------------------------

  /** Every data packet arrives behind the agreement, or the agreement is already known. */
  predicate Covered(inbox: seq<Packet>, known: bool)
    decreases |inbox|
  {
    inbox == [] || ((inbox[0].Data? ==> known) && Covered(inbox[1..], known || inbox[0].Agree?))
  }

  /** What holds between the end `x` and what it has under way to `y`. */
  predicate Half(x: End, y: End) {
    && (x.view.authorised <==> x.view.localOk && x.view.remoteOk && x.room)
    && (x.view.remoteOk ==> y.view.localOk)
    && (x.view.localOk <==> y.view.remoteOk || Agree in y.inbox)
    && (Data in y.inbox ==> x.view.authorised)
    && Covered(y.inbox, y.view.remoteOk)
    && (y.refused ==> x.room && !y.room)
  }

  predicate Inv(p: Pair) {
    Half(p.near, p.far) && Half(p.far, p.near)
  }

  lemma {:induction false} CoveredExtends(inbox: seq<Packet>, known: bool, more: seq<Packet>)
    requires Covered(inbox, known) && (known || Agree in inbox || Data !in more)
    requires Agree !in more
    ensures Covered(inbox + more, known)
    decreases |inbox|
  {
    if inbox == [] {
      assert inbox + more == more;
      PlainIsCovered(more, known);
    } else {
      assert (inbox + more)[1..] == inbox[1..] + more;
      assert Agree in inbox ==> inbox[0] == Agree || Agree in inbox[1..];
      CoveredExtends(inbox[1..], known || inbox[0].Agree?, more);
    }
  }

  lemma {:induction false} PlainIsCovered(packets: seq<Packet>, known: bool)
    requires known || Data !in packets
    ensures Covered(packets, known)
    decreases |packets|
  {
    if packets != [] {
      PlainIsCovered(packets[1..], known || packets[0].Agree?);
    }
  }

  lemma {:induction false} CoveredByAgree(inbox: seq<Packet>, known: bool)
    requires Covered(inbox, known)
    ensures Covered(inbox + [Agree], known)
    decreases |inbox|
  {
    if inbox == [] {
      assert inbox + [Agree] == [Agree] && [Agree][1..] == [];
    } else {
      assert (inbox + [Agree])[1..] == inbox[1..] + [Agree];
      CoveredByAgree(inbox[1..], known || inbox[0].Agree?);
    }
  }

  lemma PostingKeepsInv(p: Pair, packets: seq<Packet>)
    requires Inv(p) && Permitted(p.near.view, packets)
    ensures Inv(Posted(p, packets))
  {
    hide Covered;
    assert Agree !in packets;
    assert Data in packets ==> p.near.view.authorised;
    CoveredExtends(p.far.inbox, p.far.view.remoteOk, packets);
  }

  lemma AcceptingKeepsInv(p: Pair)
    requires Inv(p)
    ensures Inv(Moved(p, Accept))
  {
    hide Covered;
    CoveredByAgree(p.far.inbox, p.far.view.remoteOk);
    assert Agree in p.far.inbox + [Agree];
    assert Data in p.far.inbox + [Agree] ==> Data in p.far.inbox;
  }

  lemma TakingKeepsInv(p: Pair)
    requires Inv(p) && p.near.inbox != []
    ensures Inv(Moved(p, Receive([])))
  {
    var inbox := p.near.inbox;
    var q := Moved(p, Receive([]));
    assert q.near.inbox == inbox[1..] && q.far.inbox == p.far.inbox;
    assert inbox == [inbox[0]] + inbox[1..];
    assert forall x :: x in inbox <==> x == inbox[0] || x in inbox[1..];
  }

  lemma MoveKeepsInv(p: Pair, m: Move)
    requires Inv(p)
    ensures Inv(Moved(p, m))
  {
    hide Inv;
    match m
    case Accept => AcceptingKeepsInv(p);
    case Send(packets) =>
      if Permitted(p.near.view, packets) {
        PostingKeepsInv(p, packets);
      }
    case Receive(replies) =>
      if p.near.inbox != [] {
        TakingKeepsInv(p);
        var taken := Moved(p, Receive([]));
        assert p.far.inbox + [] == p.far.inbox;
        if Permitted(taken.near.view, replies) {
          PostingKeepsInv(taken, replies);
          assert Moved(p, m) == Posted(taken, replies);
        } else {
          assert Moved(p, m) == taken;
        }
      }
  }

  lemma SwapKeepsInv(p: Pair)
    ensures Inv(Swap(p)) == Inv(p)
  {
  }

  lemma {:induction false} EveryRunKeepsInv(nearRoom: bool, farRoom: bool, actions: seq<Action>)
    ensures Inv(After(Start(nearRoom, farRoom), actions))
    decreases |actions|
  {
    if actions != [] {
      hide Inv, Moved;
      var n := |actions| - 1;
      var p, a := After(Start(nearRoom, farRoom), actions[..n]), actions[n];
      EveryRunKeepsInv(nearRoom, farRoom, actions[..n]);
      SwapKeepsInv(p);
      MoveKeepsInv(if a.byFar then Swap(p) else p, a.move);
      SwapKeepsInv(Moved(Swap(p), a.move));
    }
  }

  lemma {:induction false} RoomStays(p: Pair, actions: seq<Action>)
    ensures After(p, actions).near.room == p.near.room && After(p, actions).far.room == p.far.room
    decreases |actions|
  {
    if actions != [] {
      RoomStays(p, actions[..|actions| - 1]);
    }
  }

  // ---- what pairing promises ---------------------------------------------------------------

  /** Data of an authorised end is never refused by an end whose store has room. */
  lemma DataIsNeverRefused(nearRoom: bool, farRoom: bool, actions: seq<Action>)
    requires farRoom || !nearRoom
    ensures !After(Start(nearRoom, farRoom), actions).far.refused
  {
    EveryRunKeepsInv(nearRoom, farRoom, actions);
    RoomStays(Start(nearRoom, farRoom), actions);
  }

  const RefusingRun := [
    Action(false, Accept), Action(true, Accept), Action(false, Receive([])), Action(false, Send([Data])),
    Action(true, Receive([])), Action(true, Receive([]))]

  /** With a full store and a peer that has room, both users accept and the first data is refused. */
  lemma FullStoreRefuses()
    ensures After(Start(true, false), RefusingRun).far.refused
  {
    var p0 := Start(true, false);
    var p1 := Step(p0, RefusingRun[0]);
    var p2 := Step(p1, RefusingRun[1]);
    assert p2.near.inbox == [Agree] && p2.far.inbox == [Agree];
    var p3 := Step(p2, RefusingRun[2]);
    assert p3.near.view.authorised && p3.far.inbox == [Agree];
    var p4 := Step(p3, RefusingRun[3]);
    assert Permitted(p3.near.view, [Data]) && p4.far.inbox == [Agree, Data];
    var p5 := Step(p4, RefusingRun[4]);
    assert p5.far.inbox == [Data] && !p5.far.view.authorised;
    var p6 := Step(p5, RefusingRun[5]);
    assert p6.far.refused;
    RunsUnroll(p0, RefusingRun);
  }

  lemma RunsUnroll(p: Pair, r: seq<Action>)
    requires |r| == 6
    ensures After(p, r) == Step(Step(Step(Step(Step(Step(p, r[0]), r[1]), r[2]), r[3]), r[4]), r[5])
  {
    hide Step;
    assert r[..5][..4] == r[..4] && r[..4][..3] == r[..3] && r[..3][..2] == r[..2] && r[..2][..1] == r[..1] && r[..1][..0] == [];
    assert After(p, r[..1]) == Step(p, r[0]);
    assert After(p, r[..2]) == Step(After(p, r[..1]), r[1]);
    assert After(p, r[..3]) == Step(After(p, r[..2]), r[2]);
    assert After(p, r[..4]) == Step(After(p, r[..3]), r[3]);
    assert After(p, r[..5]) == Step(After(p, r[..4]), r[4]);
  }

  /** Some run refuses data at an end exactly when its store is full and its peer's is not. */
  lemma RefusalNeedsFullStore(nearRoom: bool, farRoom: bool)
    ensures (exists actions :: After(Start(nearRoom, farRoom), actions).far.refused) <==> nearRoom && !farRoom
  {
    if nearRoom && !farRoom {
      FullStoreRefuses();
    } else {
      forall actions
        ensures !After(Start(nearRoom, farRoom), actions).far.refused
      {
        DataIsNeverRefused(nearRoom, farRoom, actions);
      }
    }
  }

  /** The near user has accepted somewhere in the run. */
  predicate HasAccepted(actions: seq<Action>, far: bool) {
    exists i :: 0 <= i < |actions| && actions[i] == Action(far, Accept)
  }

  predicate Hears(p: Pair, a: Action) {
    !a.byFar && a.move.Receive? && p.near.inbox != [] && p.near.inbox[0] == Agree
  }

  /** The near end has processed the peer's agreement somewhere in the run. */
  ghost predicate HasHeard(p: Pair, actions: seq<Action>) {
    exists i :: 0 <= i < |actions| && Hears(After(p, actions[..i]), actions[i])
  }

  lemma {:induction false} FlagsAreHistory(p: Pair, actions: seq<Action>)
    requires p.near.view == Unpaired && p.far.view == Unpaired
    ensures After(p, actions).near.view.localOk <==> HasAccepted(actions, false)
    ensures After(p, actions).near.view.remoteOk <==> HasHeard(p, actions)
    decreases |actions|
  {
    if actions != [] {
      var n := |actions| - 1;
      var shorter, a := actions[..n], actions[n];
      FlagsAreHistory(p, shorter);
      HistoryGrows(p, actions);
      StepFlags(After(p, shorter), a);
    }
  }

  lemma StepFlags(p: Pair, a: Action)
    ensures Step(p, a).near.view.localOk <==> p.near.view.localOk || a == Action(false, Accept)
    ensures Step(p, a).near.view.remoteOk
       <==> p.near.view.remoteOk || Hears(p, a)
  {
  }

  lemma HistoryGrows(p: Pair, actions: seq<Action>)
    requires actions != []
    ensures var n := |actions| - 1;
            && (HasAccepted(actions, false) <==> HasAccepted(actions[..n], false) || actions[n] == Action(false, Accept))
            && (HasHeard(p, actions) <==> HasHeard(p, actions[..n]) || Hears(After(p, actions[..n]), actions[n]))
  {
    hide After;
    var n := |actions| - 1;
    assert forall i :: 0 <= i < n ==> actions[..n][i] == actions[i] && actions[..n][..i] == actions[..i];
    if HasHeard(p, actions[..n]) {
      var i :| 0 <= i < n && Hears(After(p, actions[..n][..i]), actions[..n][i]);
      assert Hears(After(p, actions[..i]), actions[i]);
    }
    if HasAccepted(actions[..n], false) {
      var i :| 0 <= i < n && actions[..n][i] == Action(false, Accept);
      assert actions[i] == Action(false, Accept);
    }
  }

  /** An end is authorised exactly when its user accepted and it has processed the peer's agreement. */
  lemma AuthorisedMeansBothAccepted(farRoom: bool, actions: seq<Action>)
    ensures After(Start(true, farRoom), actions).near.view.authorised
       <==> HasAccepted(actions, false) && HasHeard(Start(true, farRoom), actions)
  {
    var p := Start(true, farRoom);
    EveryRunKeepsInv(true, farRoom, actions);
    RoomStays(p, actions);
    FlagsAreHistory(p, actions);
  }

  /** Once both users have accepted and the channels are empty, both ends are authorised. */
  lemma BothAcceptedBothAuthorised(actions: seq<Action>)
    requires HasAccepted(actions, false) && HasAccepted(actions, true)
    requires var t := After(Start(true, true), actions); t.near.inbox == [] && t.far.inbox == []
    ensures var t := After(Start(true, true), actions); t.near.view.authorised && t.far.view.authorised
  {
    var p := Start(true, true);
    EveryRunKeepsInv(true, true, actions);
    RoomStays(p, actions);
    FlagsAreHistory(p, actions);
    FarAccepted(p, actions);
  }

  lemma {:induction false} FarAccepted(p: Pair, actions: seq<Action>)
    ensures HasAccepted(actions, true) ==> After(p, actions).far.view.localOk
    decreases |actions|
  {
    if actions != [] {
      var n := |actions| - 1;
      FarAccepted(p, actions[..n]);
      if HasAccepted(actions, true) && actions[n] != Action(true, Accept) {
        var i :| 0 <= i < |actions| && actions[i] == Action(true, Accept);
        assert actions[..n][i] == Action(true, Accept);
      }
    }
  }
}
