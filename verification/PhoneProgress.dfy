/** A send on an open phone session is taken, gets through and is read. */
module PhoneProgress {
  import opened Prelude
  import opened Crypto
  import opened CipherStates
  import opened Transports
  import opened Framing
  import opened PhoneSessions

  /** `send` takes a message exactly when the session is open; its length is checked under the lock. */
  lemma CallIsTakenExactly(p: Primitives, s: Session, t: Tid, plaintext: Bytes)
    requires t < |s.threads| && s.threads[t].Idle?
    ensures Enabled(s, Call(t, plaintext))
    ensures Step(p, s, Call(t, plaintext)) == if s.closed then s else s.(threads := s.threads[t := Waiting(plaintext)])
  {
  }

  /** How many threads have a message in hand that is not sealed yet. */
  function Taken(threads: seq<Pc>): nat {
    if threads == [] then 0 else
      var n := |threads| - 1;
      Taken(threads[..n]) + if InHand(threads[n]) then 1 else 0
  }

  predicate InHand(pc: Pc) {
    pc.Waiting? || pc.Holding?
  }

  lemma {:induction false} TakenAfter(threads: seq<Pc>, t: Tid, pc: Pc)
    requires t < |threads|
    ensures Taken(threads[t := pc]) + (if InHand(threads[t]) then 1 else 0) == Taken(threads) + (if InHand(pc) then 1 else 0)
    decreases |threads|
  {
    var n := |threads| - 1;
    if t < n {
      TakenAfter(threads[..n], t, pc);
      assert threads[t := pc][..n] == threads[..n][t := pc];
    } else {
      assert threads[t := pc][..n] == threads[..n];
    }
  }

  lemma ClosingIsFinal(p: Primitives, s: Session, a: Action)
    requires Enabled(s, a)
    ensures Step(p, s, MarkClosed).closed
    ensures s.closed ==> Step(p, s, a).closed
    ensures s.closed ==> |Step(p, s, a).messages| + Taken(Step(p, s, a).threads) <= |s.messages| + Taken(s.threads)
  {
    hide Frame, NonceBytes, Taken;
    match a
    case Call(t, _) =>
    case Lock(t) => TakenAfter(s.threads, t, Holding(s.threads[t].plaintext));
    case Encrypt(t) => TakenAfter(s.threads, t, Step(p, s, a).threads[t]);
    case WriteSome(t, count) => TakenAfter(s.threads, t, Step(p, s, a).threads[t]);
    case Return(t) => TakenAfter(s.threads, t, Idle);
    case WriteFails(t) => TakenAfter(s.threads, t, Idle);
    case _ =>
  }

  /** Once the session is closed no further message is taken: at most those in hand are still sealed. */
  lemma {:induction false} ClosedTakesNothing(p: Primitives, s: Session, run: seq<Action>)
    requires s.closed && Possible(p, s, run)
    ensures After(p, s, run).closed
    ensures |After(p, s, run).messages| + Taken(After(p, s, run).threads) <= |s.messages| + Taken(s.threads)
    decreases |run|
  {
    hide Step, Enabled, Taken;
    if run != [] {
      ClosingIsFinal(p, s, run[0]);
      ClosedTakesNothing(p, Step(p, s, run[0]), run[1..]);
    }
  }

  lemma OneMoreAction(p: Primitives, s: Session, a: Action, rest: seq<Action>)
    requires Enabled(s, a) && Possible(p, Step(p, s, a), rest)
    ensures Possible(p, s, [a] + rest) && After(p, s, [a] + rest) == After(p, Step(p, s, a), rest)
  {
    hide Step, Enabled;
    assert ([a] + rest)[1..] == rest;
  }

  lemma NoAction(p: Primitives, s: Session)
    ensures Possible(p, s, []) && After(p, s, []) == s
  {
  }

  lemma {:induction false} RunsCompose(p: Primitives, s: Session, first: seq<Action>, second: seq<Action>)
    requires Possible(p, s, first) && Possible(p, After(p, s, first), second)
    ensures Possible(p, s, first + second)
    ensures After(p, s, first + second) == After(p, After(p, s, first), second)
    decreases |first|
  {
    hide Step, Enabled;
    if first == [] {
      assert first + second == second;
    } else {
      RunsCompose(p, Step(p, s, first[0]), first[1..], second);
      assert (first + second)[1..] == first[1..] + second;
    }
  }

  /** Thread `t` has let go of the lock, having put `more` on the wire as frame `n`. */
  function Sent(s: Session, t: Tid, more: Bytes, n: nat): Session
    requires t < |s.threads|
  {
    s.(lock := None, wire := s.wire + more, acked := s.acked + {n}, threads := s.threads[t := Idle])
  }

  lemma FinishWriting(p: Primitives, s: Session, t: Tid) returns (run: seq<Action>)
    requires t < |s.threads| && s.threads[t].Writing? && s.threads[t].done <= |s.threads[t].frame|
    requires !s.shut && s.broken.None?
    ensures Possible(p, s, run)
    ensures After(p, s, run) == Sent(s, t, s.threads[t].frame[s.threads[t].done..], |s.cts|)
  {
    hide Possible, After;
    var Writing(frame, done) := s.threads[t];
    var written := if done < |frame| then Step(p, s, WriteSome(t, |frame| - done)) else s;
    NoAction(p, Step(p, written, Return(t)));
    OneMoreAction(p, written, Return(t), []);
    assert frame[done..] == frame[done..|frame|];
    if done < |frame| {
      OneMoreAction(p, s, WriteSome(t, |frame| - done), [Return(t)] + []);
      run := [WriteSome(t, |frame| - done)] + ([Return(t)] + []);
      assert written.threads[t := Idle] == s.threads[t := Idle];
    } else {
      run := [Return(t)] + [];
      assert s.wire + frame[done..] == s.wire;
    }
  }

  /** A message that is too long is dropped under the lock; any other is sealed and written. */
  lemma FinishHolding(p: Primitives, s: Session, t: Tid) returns (run: seq<Action>)
    requires t < |s.threads| && s.threads[t].Holding? && !s.shut && s.broken.None?
    requires s.cipher.k.Some? && s.cipher.n < RESERVED
    ensures Possible(p, s, run)
    ensures var plaintext := s.threads[t].plaintext;
            var ct := p.seal(s.cipher.k.value, NonceBytes(s.cipher.n), [], plaintext);
            After(p, s, run) ==
              if |plaintext| <= 65519 then
                Sent(s.(cipher := Advance(s.cipher), messages := s.messages + [plaintext], cts := s.cts + [ct]), t, Frame(ct), |s.cts| + 1)
              else s.(lock := None, threads := s.threads[t := Idle])
  {
    hide Possible, After, NonceBytes, Frame;
    var done := Step(p, s, Encrypt(t));
    if |s.threads[t].plaintext| <= 65519 {
      var rest := FinishWriting(p, done, t);
      OneMoreAction(p, s, Encrypt(t), rest);
      run := [Encrypt(t)] + rest;
      var frame := done.threads[t].frame;
      assert frame[0..] == frame;
      assert done.threads[t := Idle] == s.threads[t := Idle];
    } else {
      NoAction(p, done);
      OneMoreAction(p, s, Encrypt(t), []);
      run := [Encrypt(t)] + [];
    }
  }

  /** One sender alone carries a message from its call to its success. */
  lemma SendAlone(p: Primitives, s: Session, t: Tid, plaintext: Bytes) returns (run: seq<Action>)
    requires t < |s.threads| && s.threads[t].Idle? && s.lock.None? && |plaintext| <= 65519
    requires !s.closed && !s.shut && s.broken.None? && s.cipher.k.Some? && s.cipher.n < RESERVED
    ensures Possible(p, s, run)
    ensures var ct := p.seal(s.cipher.k.value, NonceBytes(s.cipher.n), [], plaintext);
            After(p, s, run) ==
              Sent(s.(cipher := Advance(s.cipher), messages := s.messages + [plaintext], cts := s.cts + [ct]), t, Frame(ct), |s.cts| + 1)
  {
    hide Possible, After, NonceBytes, Frame;
    CallIsTakenExactly(p, s, t, plaintext);
    var called := Step(p, s, Call(t, plaintext));
    var locked := Step(p, called, Lock(t));
    var rest := FinishHolding(p, locked, t);
    OneMoreAction(p, called, Lock(t), rest);
    OneMoreAction(p, s, Call(t, plaintext), [Lock(t)] + rest);
    run := [Call(t, plaintext)] + ([Lock(t)] + rest);
    assert locked.threads[t := Idle] == s.threads[t := Idle];
  }

  /** What freeing the lock leaves as it was. */
  predicate Freed(s: Session, d: Session) {
    && d.lock.None? && d.closed == s.closed && d.shut == s.shut && d.broken == s.broken
    && |s.cts| <= |d.cts| <= |s.cts| + 1 && |d.threads| == |s.threads|
    && forall t :: 0 <= t < |s.threads| && s.threads[t].Idle? ==> d.threads[t].Idle?
  }

  lemma HolderFacts(p: Primitives, key: Bytes, s: Session)
    requires Inv(p, key, s) && BreakMarked(s) && s.lock.Some? && s.broken.None?
    ensures s.lock.value < |s.threads|
    ensures var pc := s.threads[s.lock.value];
            (pc.Holding? || pc.Writing?) && (pc.Writing? ==> pc.done <= |pc.frame|)
  {
    hide SealedInOrder, FrameAll, Frame, Acknowledged, BreakOnWire;
  }

  lemma CipherIsReady(p: Primitives, key: Bytes, s: Session)
    requires Inv(p, key, s)
    ensures s.cipher.k == Some(key) && s.cipher.n == |s.cts| == |s.messages|
  {
    hide OneHolder, InOrder, Acknowledged, NonceBytes;
  }

  /** No deadlock: the holder of the lock can always finish and free it. */
  lemma LockCanBeFreed(p: Primitives, key: Bytes, s: Session) returns (run: seq<Action>)
    requires Inv(p, key, s) && BreakMarked(s) && !s.shut && s.broken.None? && |s.cts| < RESERVED
    ensures Possible(p, s, run) && Freed(s, After(p, s, run))
  {
    hide Possible, After, Inv, BreakMarked, Frame, NonceBytes;
    CipherIsReady(p, key, s);
    if s.lock.None? {
      NoAction(p, s);
      run := [];
    } else {
      HolderFacts(p, key, s);
      if s.threads[s.lock.value].Writing? {
        run := FinishWriting(p, s, s.lock.value);
      } else {
        run := FinishHolding(p, s, s.lock.value);
      }
    }
  }

  /**
   * After any run that leaves the session open and the stream unbroken: an idle thread's message of at most
   * 65519 bytes can be carried through, while nonces last. It is then the last of the sealed messages,
   * reported as sent, and a phone at the other end returns all of them up to the first that does not decode.
   */
  lemma EverySendCanComplete(p: Primitives, key: Bytes, decodes: Decoder, senders: nat, before: seq<Action>, t: Tid, plaintext: Bytes)
    returns (run: seq<Action>)
    requires p.Lawful() && Possible(p, Open(key, senders), before)
    requires var s := After(p, Open(key, senders), before);
             && !s.closed && !s.shut && s.broken.None? && t < |s.threads| && s.threads[t].Idle?
             && |plaintext| <= 65519 && |s.cts| + 1 < RESERVED
    ensures Possible(p, Open(key, senders), run)
    ensures var d := After(p, Open(key, senders), run);
            && d.messages != [] && d.messages[|d.messages| - 1] == plaintext
            && |d.messages| in d.acked && d.wire == FrameAll(d.cts) && |d.cts| == |d.messages|
            && PhoneReceivedAll(p, decodes, Keyed(key), d.wire) == Understood(decodes, d.messages)
  {
    var start := Open(key, senders);
    var s := After(p, start, before);
    RunFacts(p, key, senders, before);
    hide Possible, After, Inv, BreakMarked, Primitives.Lawful, Expecting, PhoneReceivedAll, ReceivedAll, Understood, FrameAll, Frame,
         NonceBytes;
    var freeing := LockCanBeFreed(p, key, s);
    var free := After(p, s, freeing);
    RunKeepsInv(p, key, s, freeing);
    CipherIsReady(p, key, free);
    var sending := SendAlone(p, free, t, plaintext);
    RunsCompose(p, s, freeing, sending);
    RunsCompose(p, start, before, freeing + sending);
    run := before + (freeing + sending);
    var d := After(p, start, run);
    assert d == After(p, free, sending);
    RunFacts(p, key, senders, run);
    WireIsWhole(p, key, d);
    AnyInterleavingIsReadInOrder(p, key, decodes, senders, run);
    WholeFramesOfAll(d.cts);
    assert d.messages[..|d.messages|] == d.messages;
  }

  lemma WireIsWhole(p: Primitives, key: Bytes, s: Session)
    requires Inv(p, key, s) && BreakMarked(s) && s.lock.None? && !s.shut && s.broken.None?
    ensures !s.torn && s.wire == FrameAll(s.cts)
  {
    hide SealedInOrder, FrameAll, Acknowledged;
  }
}
