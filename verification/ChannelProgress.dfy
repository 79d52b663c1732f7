/** A send on an open channel is taken, gets through and is read, whatever the other senders are doing. */
module ChannelProgress {
  import opened Prelude
  import opened Crypto
  import opened CipherStates
  import opened Transports
  import opened Framing
  import opened Channels

  /** `send` takes a message exactly when the session is open, the message fits and fewer than 2^48 + 1 were sent. */
  lemma CallIsTakenExactly(p: Primitives, c: Channel, t: Tid, plaintext: Bytes)
    requires t < |c.threads| && c.threads[t].Idle?
    ensures Enabled(c, Call(t, plaintext))
    ensures var d := Step(p, c, Call(t, plaintext));
            if !c.closed && |plaintext| <= 65519 && c.sentCount <= 0x1_0000_0000_0000 then
              && d.accepted == c.accepted + [plaintext] && d.threads == c.threads[t := WantsNoise(|c.accepted|)]
              && d == c.(sentCount := c.sentCount + 1, accepted := d.accepted, threads := d.threads)
            else
              d == c.(sentCount := d.sentCount)
  {
  }

  lemma ClosingIsFinal(p: Primitives, c: Channel, a: Action)
    requires Enabled(c, a)
    ensures Step(p, c, MarkClosed).closed
    ensures c.closed ==> Step(p, c, a).closed && Step(p, c, a).accepted == c.accepted
  {
    hide Frame, NonceBytes;
  }

  /** Once the session is marked closed no further message is taken, whatever happens. */
  lemma {:induction false} ClosedTakesNothing(p: Primitives, c: Channel, run: seq<Action>)
    requires c.closed && Possible(p, c, run)
    ensures After(p, c, run).closed && After(p, c, run).accepted == c.accepted
    decreases |run|
  {
    hide Step, Enabled;
    if run != [] {
      ClosingIsFinal(p, c, run[0]);
      ClosedTakesNothing(p, Step(p, c, run[0]), run[1..]);
    }
  }

  // ---- finishing what one sender has begun ------------------------------------------------

  lemma OneMoreAction(p: Primitives, c: Channel, a: Action, rest: seq<Action>)
    requires Enabled(c, a) && Possible(p, Step(p, c, a), rest)
    ensures Possible(p, c, [a] + rest) && After(p, c, [a] + rest) == After(p, Step(p, c, a), rest)
  {
    hide Step, Enabled;
    assert ([a] + rest)[1..] == rest;
  }

  lemma NoAction(p: Primitives, c: Channel)
    ensures Possible(p, c, []) && After(p, c, []) == c
  {
  }

  /** Thread `t` has let go of both locks, having put `more` on the wire as frame `n`. */
  function Sent(c: Channel, t: Tid, more: Bytes, n: nat): Channel
    requires t < |c.threads|
  {
    c.(noise := None, writer := None, wire := c.wire + more, acked := c.acked + {n}, threads := c.threads[t := Idle])
  }

  lemma FinishWriting(p: Primitives, c: Channel, t: Tid) returns (run: seq<Action>)
    requires t < |c.threads| && c.threads[t].Writing? && c.threads[t].done <= |c.threads[t].frame|
    requires !c.shut && c.broken.None?
    ensures Possible(p, c, run)
    ensures After(p, c, run) == Sent(c, t, c.threads[t].frame[c.threads[t].done..], |c.cts|)
  {
    hide Possible, After;
    var Writing(frame, done) := c.threads[t];
    var written := if done < |frame| then Step(p, c, WriteSome(t, |frame| - done)) else c;
    NoAction(p, Step(p, written, Return(t)));
    OneMoreAction(p, written, Return(t), []);
    assert frame[done..] == frame[done..|frame|];
    if done < |frame| {
      OneMoreAction(p, c, WriteSome(t, |frame| - done), [Return(t)] + []);
      run := [WriteSome(t, |frame| - done)] + ([Return(t)] + []);
      assert written.threads[t := Idle] == c.threads[t := Idle];
    } else {
      run := [Return(t)] + [];
      assert c.wire + frame[done..] == c.wire;
    }
  }

  lemma FinishSealed(p: Primitives, c: Channel, t: Tid) returns (run: seq<Action>)
    requires t < |c.threads| && c.threads[t].Sealed? && c.writer.None? && !c.shut && c.broken.None?
    ensures Possible(p, c, run)
    ensures After(p, c, run) == Sent(c, t, c.threads[t].frame, |c.cts|)
  {
    hide Possible, After;
    var rest := FinishWriting(p, Step(p, c, LockWriter(t)), t);
    OneMoreAction(p, c, LockWriter(t), rest);
    run := [LockWriter(t)] + rest;
    var frame := c.threads[t].frame;
    assert frame[0..] == frame;
    assert c.threads[t := Writing(frame, 0)][t := Idle] == c.threads[t := Idle];
  }

  lemma FinishHolding(p: Primitives, c: Channel, t: Tid) returns (run: seq<Action>)
    requires t < |c.threads| && c.threads[t].HoldsNoise? && c.threads[t].ticket < |c.accepted|
    requires c.writer.None? && !c.shut && c.broken.None?
    requires c.cipher.k.Some? && c.cipher.n < RESERVED && |c.accepted[c.threads[t].ticket]| <= MAX_PLAINTEXT
    ensures Possible(p, c, run)
    ensures var ticket := c.threads[t].ticket;
            var ct := p.seal(c.cipher.k.value, NonceBytes(c.cipher.n), [], c.accepted[ticket]);
            After(p, c, run) ==
              Sent(c.(cipher := Advance(c.cipher), order := c.order + [ticket], cts := c.cts + [ct]), t, Frame(ct), |c.cts| + 1)
  {
    hide Possible, After, NonceBytes, Frame;
    var sealed := Step(p, c, SealMessage(t));
    var rest := FinishSealed(p, sealed, t);
    OneMoreAction(p, c, SealMessage(t), rest);
    run := [SealMessage(t)] + rest;
    assert sealed.threads[t := Idle] == c.threads[t := Idle];
  }

  /** One sender alone carries a message from its call to its success. */
  lemma SendAlone(p: Primitives, c: Channel, t: Tid, plaintext: Bytes) returns (run: seq<Action>)
    requires t < |c.threads| && c.threads[t].Idle? && c.noise.None? && c.writer.None?
    requires !c.closed && !c.shut && c.broken.None? && |plaintext| <= 65519 && c.sentCount <= 0x1_0000_0000_0000
    requires c.cipher.k.Some? && c.cipher.n < RESERVED
    ensures Possible(p, c, run)
    ensures var ct := p.seal(c.cipher.k.value, NonceBytes(c.cipher.n), [], plaintext);
            After(p, c, run) ==
              Sent(c.(sentCount := c.sentCount + 1, accepted := c.accepted + [plaintext], cipher := Advance(c.cipher),
                      order := c.order + [|c.accepted|], cts := c.cts + [ct]), t, Frame(ct), |c.cts| + 1)
  {
    hide Possible, After, NonceBytes, Frame;
    CallIsTakenExactly(p, c, t, plaintext);
    var called := Step(p, c, Call(t, plaintext));
    var locked := Step(p, called, LockNoise(t));
    var rest := FinishHolding(p, locked, t);
    OneMoreAction(p, called, LockNoise(t), rest);
    OneMoreAction(p, c, Call(t, plaintext), [LockNoise(t)] + rest);
    run := [Call(t, plaintext)] + ([LockNoise(t)] + rest);
    assert locked.threads[t := Idle] == c.threads[t := Idle];
  }

  // ---- the locks can always be freed --------------------------------------------------------------

  /** Both locks belong to threads of this session. */
  predicate OwnersExist(c: Channel) {
    && (c.noise.Some? && c.noise.value.SenderThread? ==> c.noise.value.t < |c.threads|)
    && (c.writer.Some? ==> c.writer.value < |c.threads|)
  }

  lemma StepKeepsOwners(p: Primitives, c: Channel, a: Action)
    requires Enabled(c, a) && OwnersExist(c)
    ensures OwnersExist(Step(p, c, a)) && |Step(p, c, a).threads| == |c.threads|
  {
    hide Frame, NonceBytes;
  }

  lemma {:induction false} RunKeepsOwners(p: Primitives, c: Channel, run: seq<Action>)
    requires Possible(p, c, run) && OwnersExist(c)
    ensures OwnersExist(After(p, c, run)) && |After(p, c, run).threads| == |c.threads|
    decreases |run|
  {
    hide Step, Enabled, OwnersExist;
    if run != [] {
      StepKeepsOwners(p, c, run[0]);
      RunKeepsOwners(p, Step(p, c, run[0]), run[1..]);
    }
  }

  /** What freeing the locks leaves as it was. */
  predicate Freed(c: Channel, d: Channel) {
    && d.noise.None? && d.writer.None?
    && d.closed == c.closed && d.shut == c.shut && d.broken == c.broken && d.sentCount == c.sentCount
    && d.accepted == c.accepted && |d.threads| == |c.threads|
    && forall t :: 0 <= t < |c.threads| && c.threads[t].Idle? ==> d.threads[t].Idle?
  }

  lemma HolderFacts(p: Primitives, key: Bytes, c: Channel, t: Tid)
    requires Inv(p, key, c) && t < |c.threads| && c.noise == Some(SenderThread(t))
    ensures c.threads[t].HoldsNoise? || Carrying(c.threads[t])
    ensures c.threads[t].Writing? ==> c.threads[t].done <= |c.threads[t].frame|
    ensures c.threads[t].HoldsNoise? ==> c.threads[t].ticket < |c.accepted| && |c.accepted[c.threads[t].ticket]| <= MAX_PLAINTEXT
    ensures !c.threads[t].Writing? && OwnersExist(c) ==> c.writer.None?
  {
    hide NoncesInOrder, WireInOrder, AcksOnWire, FrameAll, Frame;
    assert Waiting(c.threads[t]) ==> c.threads[t].ticket < |c.accepted|;
  }

  lemma CipherIsReady(p: Primitives, key: Bytes, c: Channel)
    requires Inv(p, key, c)
    ensures c.cipher.k == Some(key) && c.cipher.n == |c.cts| < RESERVED
  {
    MessagesAreSealed(p, key, c);
    hide LocksHeld, TicketsUnique, CarriesLast, WireInOrder, AcksOnWire, Bounded, NonceBytes;
  }

  lemma NoHolderNoWriter(p: Primitives, key: Bytes, c: Channel)
    requires Inv(p, key, c) && OwnersExist(c) && (c.noise.None? || c.noise == Some(ReaderThread))
    ensures c.writer.None?
  {
    hide TicketsUnique, NoncesInOrder, CarriesLast, WireInOrder, AcksOnWire, Bounded;
    if c.writer.Some? {
      assert c.threads[c.writer.value].Writing?;
    }
  }

  /** No deadlock: from any state of an open, unbroken channel the holders of the locks can finish and free them. */
  lemma LocksCanBeFreed(p: Primitives, key: Bytes, c: Channel) returns (run: seq<Action>)
    requires Inv(p, key, c) && OwnersExist(c) && !c.shut && c.broken.None?
    ensures Possible(p, c, run) && Freed(c, After(p, c, run))
  {
    hide Possible, After, Inv, OwnersExist, Frame, NonceBytes;
    CipherIsReady(p, key, c);
    if c.noise.None? {
      NoHolderNoWriter(p, key, c);
      NoAction(p, c);
      run := [];
    } else if c.noise.value.ReaderThread? {
      NoHolderNoWriter(p, key, c);
      NoAction(p, Step(p, c, ReaderUnlocks));
      OneMoreAction(p, c, ReaderUnlocks, []);
      run := [ReaderUnlocks] + [];
    } else {
      var t := c.noise.value.t;
      assert t < |c.threads| by { OwnerIsThread(c); }
      HolderFacts(p, key, c, t);
      if c.threads[t].Writing? {
        run := FinishWriting(p, c, t);
      } else if c.threads[t].Sealed? {
        run := FinishSealed(p, c, t);
      } else {
        run := FinishHolding(p, c, t);
      }
    }
  }

  lemma OwnerIsThread(c: Channel)
    requires OwnersExist(c) && c.noise.Some? && c.noise.value.SenderThread?
    ensures c.noise.value.t < |c.threads|
  {
  }

  // ---- main result -----------------------------------------------------------------------------------

  /**
   * After any run that leaves the session open and the stream unbroken, whoever holds the locks: an idle
   * thread's message of at most 65519 bytes, with fewer than 2^48 + 1 sent, can be carried through. It is then
   * the last of the sealed messages, reported as sent, and the reader returns all of them up to the first
   * that does not decode.
   */
  lemma EverySendCanComplete(p: Primitives, key: Bytes, decodes: Decoder, senders: nat, before: seq<Action>, t: Tid, plaintext: Bytes)
    returns (run: seq<Action>)
    requires p.Lawful() && Possible(p, Open(key, senders), before)
    requires var c := After(p, Open(key, senders), before);
             && !c.closed && !c.shut && c.broken.None? && t < |c.threads| && c.threads[t].Idle?
             && |plaintext| <= 65519 && c.sentCount <= 0x1_0000_0000_0000
    ensures Possible(p, Open(key, senders), run)
    ensures var c, d := After(p, Open(key, senders), before), After(p, Open(key, senders), run);
            && d.accepted == c.accepted + [plaintext]
            && (forall j :: 0 <= j < |d.order| ==> d.order[j] < |d.accepted|)
            && Messages(d) != [] && Messages(d)[|Messages(d)| - 1] == plaintext
            && |Messages(d)| in d.acked && d.wire == FrameAll(d.cts) && |d.cts| == |Messages(d)|
            && ReceivedAll(p, decodes, NewReader(key), d.wire) == Understood(decodes, Messages(d))
            && (AllDecode(decodes, Messages(d)) ==> ReceivedAll(p, decodes, NewReader(key), d.wire) == Messages(d))
  {
    var start := Open(key, senders);
    var c := After(p, start, before);
    RunFacts(p, key, senders, before);
    RunKeepsOwners(p, start, before);
    hide Possible, After, Inv, BreakMarked, Primitives.Lawful, Expecting, ReceivedAll, Understood, FrameAll, Frame, NonceBytes,
         OwnersExist, AllDecode;
    var freeing := LocksCanBeFreed(p, key, c);
    var free := After(p, c, freeing);
    RunKeepsInv(p, key, c, freeing);
    CipherIsReady(p, key, free);
    var sending := SendAlone(p, free, t, plaintext);
    RunsCompose(p, c, freeing, sending);
    RunsCompose(p, start, before, freeing + sending);
    run := before + (freeing + sending);
    var d := After(p, start, run);
    assert d == After(p, free, sending);
    RunFacts(p, key, senders, run);
    NobodyCarries(p, key, d);
    QuiescentChannelDeliversAll(p, key, decodes, senders, run);
    if AllDecode(decodes, Messages(d)) {
      AllUnderstood(decodes, Messages(d));
    }
  }

  lemma NobodyCarries(p: Primitives, key: Bytes, c: Channel)
    requires Inv(p, key, c) && c.noise.None?
    ensures forall t :: 0 <= t < |c.threads| ==> !Carrying(c.threads[t])
  {
  }

  lemma AllUnderstood(decodes: Decoder, msgs: seq<Bytes>)
    requires AllDecode(decodes, msgs)
    ensures Understood(decodes, msgs) == msgs
  {
    hide Understood;
    assert msgs[..|msgs|] == msgs;
    UnderstoodExactly(decodes, msgs, |msgs|);
  }
}
