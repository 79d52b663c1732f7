/** What the XX handshake guarantees: call order, honest completion, and detection of any tampering. */
module HandshakeProofs {
  import opened Prelude
  import opened Crypto
  import opened CipherStates
  import opened SymmetricStates
  import opened Handshakes

  // ---- any sequence of calls on one party --------------------------------

  datatype Call = Write(ephemeral: Bytes, payload: Bytes) | ReadIn(message: Bytes)

  function Answer(p: Primitives, st: Party, call: Call): (r: (Party, Reply))
    requires Ready(st)
    ensures Ready(r.0)
  {
    match call
    case Write(ephemeral, payload) => Written(p, st, ephemeral, payload)
    case ReadIn(message) => Read(p, st, message)
  }

  /** What every move on a SymmetricState keeps: the nonce discipline, and `h` hashing what was mixed in. */
  ghost predicate SymSound(p: Primitives, s: Sym) {
    NonceDiscipline(s.cipher) && Tracks(p, s.h, s.mixed)
  }

  /** Everything a party keeps over any calls, successful or not. */
  ghost predicate Sound(p: Primitives, st: Party) {
    Ready(st) && SymSound(p, st.sym)
  }

  lemma MixedHashKeeps(p: Primitives, s: Sym, data: Bytes)
    requires p.Lawful() && SymSound(p, s)
    ensures SymSound(p, MixedHash(p, s, data))
  {
    MixedHashTracks(p, s.h, s.mixed, data);
  }

  lemma MixedDhKeeps(p: Primitives, s: Sym, private: Bytes, public: Bytes)
    requires SymSound(p, s)
    ensures var z := MixedDh(p, s, private, public); z.Some? ==> SymSound(p, z.value)
  {
    var z := Dh(p, private, public);
    if z.Some? {
      InitializeKeepsDiscipline(s.cipher, Some(Hkdf2(p, s.ck, z.value).1));
    }
  }

  lemma CipherCallsKeep(p: Primitives, s: Sym, text: Bytes)
    requires p.Lawful() && SymSound(p, s)
    ensures SymSound(p, EncryptedAndHashed(p, s, text).0)
    ensures SymSound(p, DecryptedAndHashed(p, s, text).0)
  {
    CallsKeepDiscipline(p, s.cipher, s.h, text);
    MixedHashTracks(p, s.h, s.mixed, text);
    var ct := Encrypted(p, s.cipher, s.h, text).1;
    if ct.Ok? {
      MixedHashTracks(p, s.h, s.mixed, ct.value);
    }
    hide Primitives.Lawful, NonceDiscipline, Tracks, Encrypted, Decrypted;
  }

  lemma StaticWrittenKeeps(p: Primitives, st: Party, prefix: Bytes, payload: Bytes)
    requires p.Lawful() && SymSound(p, st.sym) && st.re.Some?
    ensures SymSound(p, StaticWritten(p, st, prefix, payload).0.sym)
  {
    hide SymSound, EncryptedAndHashed, MixedDh;
    CipherCallsKeep(p, st.sym, st.sPub);
    var (s, ct) := EncryptedAndHashed(p, st.sym, st.sPub);
    if ct.Ok? {
      MixedDhKeeps(p, s, st.sPriv, st.re.value);
      var z := MixedDh(p, s, st.sPriv, st.re.value);
      if z.Some? {
        CipherCallsKeep(p, z.value, payload);
      }
    }
  }

  lemma StaticReadKeeps(p: Primitives, st: Party, a: Bytes, b: Bytes)
    requires p.Lawful() && SymSound(p, st.sym) && st.ePriv.Some?
    ensures SymSound(p, StaticRead(p, st, a, b).0.sym)
  {
    hide SymSound, DecryptedAndHashed, MixedDh;
    CipherCallsKeep(p, st.sym, a);
    var (s, rs) := DecryptedAndHashed(p, st.sym, a);
    if rs.Ok? {
      MixedDhKeeps(p, s, st.ePriv.value, rs.value);
      var z := MixedDh(p, s, st.ePriv.value, rs.value);
      if z.Some? {
        CipherCallsKeep(p, z.value, b);
      }
    }
  }

  lemma InitialHashLength(p: Primitives)
    requires p.Lawful()
    ensures |InitialHash(p, PROTOCOL_NAME)| == HASH_LEN
  {
    HashLaw(p, Ascii(PROTOCOL_NAME));
  }

  lemma StartIsSound(p: Primitives, initiator: bool, sPriv: Bytes, sPub: Bytes)
    requires p.Lawful()
    ensures Sound(p, Start(p, initiator, sPriv, sPub))
  {
    InitialHashLength(p);
    MixedHashTracks(p, InitialHash(p, PROTOCOL_NAME), [], Ascii(PROLOGUE));
  }

  lemma WrittenKeepsSound(p: Primitives, st: Party, ephemeral: Bytes, payload: Bytes)
    requires p.Lawful() && Sound(p, st)
    ensures Sound(p, Written(p, st, ephemeral, payload).0)
  {
    hide SymSound, EncryptedAndHashed, MixedDh, StaticWritten;
    var st1 := WithEphemeral(p, st, ephemeral);
    MixedHashKeeps(p, st.sym, p.publicKey(ephemeral));
    if st.initiator && st.step == 0 {
      CipherCallsKeep(p, st1.sym, payload);
    } else if !st.initiator && st.step == 1 {
      MixedDhKeeps(p, st1.sym, ephemeral, st1.re.value);
      var z := MixedDh(p, st1.sym, ephemeral, st1.re.value);
      if z.Some? {
        StaticWrittenKeeps(p, st1.(sym := z.value), st1.ePub.value, payload);
      }
    } else if st.initiator && st.step == 2 {
      StaticWrittenKeeps(p, st, [], payload);
    }
  }

  lemma ReadKeepsSound(p: Primitives, st: Party, message: Bytes)
    requires p.Lawful() && Sound(p, st)
    ensures Sound(p, Read(p, st, message).0)
  {
    hide SymSound, DecryptedAndHashed, MixedDh, StaticRead;
    if !st.initiator && st.step == 2 {
      if |message| >= 48 {
        StaticReadKeeps(p, st, message[..48], message[48..]);
      }
    } else if |message| >= 32 {
      var e := message[..32];
      MixedHashKeeps(p, st.sym, e);
      var st1 := st.(sym := MixedHash(p, st.sym, e), re := Some(e));
      if !st.initiator && st.step == 0 {
        CipherCallsKeep(p, st1.sym, message[32..]);
      } else if st.initiator && st.step == 1 && |message| >= 80 {
        MixedDhKeeps(p, st1.sym, st1.ePriv.value, e);
        var z := MixedDh(p, st1.sym, st1.ePriv.value, e);
        if z.Some? {
          StaticReadKeeps(p, st1.(sym := z.value), message[32..80], message[80..]);
        }
      }
    }
  }

  lemma AnswerKeepsSound(p: Primitives, st: Party, call: Call)
    requires p.Lawful() && Sound(p, st)
    ensures Sound(p, Answer(p, st, call).0)
  {
    match call {
      case Write(ephemeral, payload) => WrittenKeepsSound(p, st, ephemeral, payload);
      case ReadIn(message) => ReadKeepsSound(p, st, message);
    }
  }

  function After(p: Primitives, st: Party, calls: seq<Call>): (end: Party)
    requires Ready(st)
    ensures Ready(end)
    decreases |calls|
  {
    if calls == [] then st else After(p, Answer(p, st, calls[0]).0, calls[1..])
  }

  /** For each accepted call, whether it was a write. */
  function Accepted(p: Primitives, st: Party, calls: seq<Call>): seq<bool>
    requires Ready(st)
    decreases |calls|
  {
    if calls == [] then [] else
      var (next, r) := Answer(p, st, calls[0]);
      var rest := Accepted(p, next, calls[1..]);
      if r.Ok? then [calls[0].Write?] + rest else rest
  }

  /** The initiator writes, reads, writes; the responder reads, writes, reads. */
  function Pattern(initiator: bool): (s: seq<bool>)
    ensures |s| == 3
  {
    if initiator then [true, false, true] else [false, true, false]
  }

  /** A successful call is the next one of the pattern and takes one step; a failed one takes none. */
  lemma OneCallFollowsPattern(p: Primitives, st: Party, call: Call)
    requires Ready(st)
    ensures var (next, r) := Answer(p, st, call);
            && next.initiator == st.initiator
            && (if r.Ok? then st.step < 3 && next.step == st.step + 1 && Pattern(st.initiator)[st.step] == call.Write?
                else next.step == st.step)
  {
    hide EncryptedAndHashed, DecryptedAndHashed, MixedDh;
  }

  lemma {:induction false} CallsFollowPattern(p: Primitives, st: Party, calls: seq<Call>)
    requires p.Lawful() && Sound(p, st)
    ensures var end := After(p, st, calls);
            && Sound(p, end)
            && end.initiator == st.initiator
            && st.step <= end.step
            && Accepted(p, st, calls) == Pattern(st.initiator)[st.step..end.step]
    decreases |calls|
  {
    hide Primitives.Lawful, SymSound, Written, Read;
    if calls != [] {
      var (next, r) := Answer(p, st, calls[0]);
      AnswerKeepsSound(p, st, calls[0]);
      OneCallFollowsPattern(p, st, calls[0]);
      CallsFollowPattern(p, next, calls[1..]);
      var pat := Pattern(st.initiator);
      var end := After(p, st, calls);
      if r.Ok? {
        assert next.step == st.step + 1 && pat[st.step] == calls[0].Write?;
        assert pat[st.step..end.step] == [pat[st.step]] + pat[next.step..end.step];
      } else {
        assert next.step == st.step;
      }
    }
  }

  /** Over any calls whatever, a fresh party only accepts its own message order and never reuses a nonce. */
  lemma AnyCallsAreSafe(p: Primitives, initiator: bool, sPriv: Bytes, sPub: Bytes, calls: seq<Call>)
    requires p.Lawful()
    ensures var st := Start(p, initiator, sPriv, sPub);
            var end := After(p, st, calls);
            && Accepted(p, st, calls) == Pattern(initiator)[..end.step]
            && (IsFinished(end) <==> Accepted(p, st, calls) == Pattern(initiator))
            && NonceDiscipline(end.sym.cipher)
            && Tracks(p, end.sym.h, end.sym.mixed)
  {
    var st := Start(p, initiator, sPriv, sPub);
    StartIsSound(p, initiator, sPriv, sPub);
    CallsFollowPattern(p, st, calls);
    var end := After(p, st, calls);
    assert |Pattern(initiator)[..end.step]| == end.step;
    assert Pattern(initiator)[..3] == Pattern(initiator);
  }

  // ---- two parties --------------------------------------------------------

  datatype Keys = Keys(identity: Bytes, ephemeral: Bytes)

  predicate WellSized(k: Keys) {
    |k.identity| == KEY_LEN && |k.ephemeral| == KEY_LEN
  }

  /** A finished initiator: what it wrote, what it read, and where it ended. */
  datatype InitiatorEnd = InitiatorEnd(m1: Bytes, m3: Bytes, read2: Bytes, st: Party)

  datatype ResponderEnd = ResponderEnd(m2: Bytes, read1: Bytes, read3: Bytes, st: Party)

  /** The initiator's whole run when `m2` is delivered to it; `None` when some call fails. */
  function InitiatorRun(p: Primitives, k: Keys, w1: Bytes, m2: Bytes, w3: Bytes): Option<InitiatorEnd> {
    var st0 := Start(p, true, k.identity, p.publicKey(k.identity));
    var (st1, r1) := Written(p, st0, k.ephemeral, w1);
    if r1.Err? then None else
    var (st2, r2) := Read(p, st1, m2);
    if r2.Err? then None else
    var (st3, r3) := Written(p, st2, k.ephemeral, w3);
    if r3.Err? then None else Some(InitiatorEnd(r1.value, r3.value, r2.value, st3))
  }

  /** The responder up to its answer to `m1`: payload read, answer, state. */
  function ResponderAnswer(p: Primitives, k: Keys, m1: Bytes, w2: Bytes): (r: Option<(Bytes, Bytes, Party)>)
    ensures r.Some? ==> Ready(r.value.2)
  {
    var st0 := Start(p, false, k.identity, p.publicKey(k.identity));
    var (st1, r1) := Read(p, st0, m1);
    if r1.Err? then None else
    var (st2, r2) := Written(p, st1, k.ephemeral, w2);
    if r2.Err? then None else Some((r1.value, r2.value, st2))
  }

  function ResponderRun(p: Primitives, k: Keys, m1: Bytes, w2: Bytes, m3: Bytes): Option<ResponderEnd> {
    match ResponderAnswer(p, k, m1, w2)
    case None => None
    case Some((read1, m2, st2)) =>
      var (st3, r3) := Read(p, st2, m3);
      if r3.Err? then None else Some(ResponderEnd(m2, read1, r3.value, st3))
  }

  /** Mutual authentication, equal hashes, payloads intact, transport keys crosswise. */
  ghost predicate Agreed(p: Primitives, kI: Keys, kR: Keys, w1: Bytes, w2: Bytes, w3: Bytes, i: InitiatorEnd, r: ResponderEnd) {
    && i.st.rs == Some(p.publicKey(kR.identity))
    && r.st.rs == Some(p.publicKey(kI.identity))
    && i.st.sym.h == r.st.sym.h
    && r.read1 == w1 && i.read2 == w2 && r.read3 == w3
    && SendingKey(p, i.st) == ReceivingKey(p, r.st)
    && SendingKey(p, r.st) == ReceivingKey(p, i.st)
  }

  /** Sealing and opening from the same state end in the same state. */
  lemma SealOpenAgree(p: Primitives, s: Sym, plaintext: Bytes)
    requires p.Lawful() && s.cipher.n < RESERVED
    ensures var (s', ct) := EncryptedAndHashed(p, s, plaintext);
            && ct.Ok?
            && DecryptedAndHashed(p, s, ct.value) == (s', Ok(plaintext))
            && |ct.value| == |plaintext| + (if s.cipher.k.Some? then TAG_LEN else 0)
            && s'.cipher.n <= s.cipher.n + 1 && s'.cipher.k == s.cipher.k
  {
    if s.cipher.k.Some? {
      SealLaw(p, s.cipher.k.value, NonceBytes(s.cipher.n), s.h, plaintext);
    }
    hide Primitives.Lawful, NonceBytes;
  }

  /** Messages 2 and 3 share their tail: the static key, its DH, the payload. */
  lemma StaticAgree(p: Primitives, w: Party, r: Party, prefix: Bytes, payload: Bytes)
    requires p.Lawful() && w.sym == r.sym && w.sym.cipher.n < RESERVED && w.sym.cipher.k.Some?
    requires w.re.Some? && r.ePriv.Some? && |w.sPub| == KEY_LEN
    requires Dh(p, w.sPriv, w.re.value).Some? && Dh(p, w.sPriv, w.re.value) == Dh(p, r.ePriv.value, w.sPub)
    ensures var (w', m) := StaticWritten(p, w, prefix, payload);
            && m.Ok? && |m.value| == |prefix| + 64 + |payload|
            && m.value[..|prefix|] == prefix
            && var a, b := m.value[|prefix|..|prefix| + 48], m.value[|prefix| + 48..];
               var (r', got) := StaticRead(p, r, a, b);
            && got == Ok(payload)
            && r'.sym == w'.sym && r' == r.(sym := w'.sym, step := r.step + 1, rs := Some(w.sPub))
            && w' == w.(sym := w'.sym, step := w.step + 1)
            && w'.sym.cipher.n <= 1 && w'.sym.cipher.k.Some?
  {
    SealOpenAgree(p, w.sym, w.sPub);
    hide Primitives.Lawful, EncryptedAndHashed, DecryptedAndHashed, Hkdf2;
    var (s1, a) := EncryptedAndHashed(p, w.sym, w.sPub);
    var s2 := MixedDh(p, s1, w.sPriv, w.re.value).value;
    SealOpenAgree(p, s2, payload);
    var (s3, b) := EncryptedAndHashed(p, s2, payload);
    var m := StaticWritten(p, w, prefix, payload).1.value;
    assert m == prefix + a.value + b.value;
    assert m[|prefix|..|prefix| + 48] == a.value && m[|prefix| + 48..] == b.value;
    assert m[..|prefix|] == prefix;
  }

  function InitiatorOpened(p: Primitives, k: Keys, w1: Bytes): (Party, Reply) {
    Written(p, Start(p, true, k.identity, p.publicKey(k.identity)), k.ephemeral, w1)
  }

  /** After message 1 both hash states agree. */
  lemma Message1Agrees(p: Primitives, kI: Keys, kR: Keys, w1: Bytes)
    requires p.Lawful()
    ensures var (i1, m1) := InitiatorOpened(p, kI, w1);
            && m1 == Ok(p.publicKey(kI.ephemeral) + w1) && |m1.value| == 32 + |w1|
            && var (r1, got) := Read(p, Start(p, false, kR.identity, p.publicKey(kR.identity)), m1.value);
            && got == Ok(w1) && r1.sym == i1.sym && r1.re == i1.ePub && r1.step == i1.step == 1
            && r1.sPriv == kR.identity && r1.sPub == p.publicKey(kR.identity)
            && i1.ePriv == Some(kI.ephemeral) && i1.ePub == Some(p.publicKey(kI.ephemeral)) && i1.sPriv == kI.identity
            && i1.sPub == p.publicKey(kI.identity)
            && i1.initiator && !r1.initiator
  {
    var e := p.publicKey(kI.ephemeral);
    assert (e + w1)[..32] == e && (e + w1)[32..] == w1;
  }

  /** After message 2 too: its DH results are the same on both ends. */
  lemma Message2Agrees(p: Primitives, kI: Keys, kR: Keys, i1: Party, r1: Party, w2: Bytes)
    requires p.Lawful() && WellSized(kI) && WellSized(kR)
    requires i1.initiator && !r1.initiator && i1.step == r1.step == 1 && r1.sym == i1.sym
    requires i1.ePriv == Some(kI.ephemeral) && i1.ePub == Some(p.publicKey(kI.ephemeral)) && r1.re == i1.ePub
    requires r1.sPriv == kR.identity && r1.sPub == p.publicKey(kR.identity)
    ensures var (r2, m2) := Written(p, r1, kR.ephemeral, w2);
            && m2.Ok? && |m2.value| == 96 + |w2|
            && Ready(r2) && r2.step == 2 && !r2.initiator && r2.ePriv == Some(kR.ephemeral)
            && var (i2, got) := Read(p, i1, m2.value);
            && got == Ok(w2) && Ready(i2) && i2.sym == r2.sym && i2.step == 2 && i2.initiator
            && i2.rs == Some(r1.sPub) && i2.re == r2.ePub == Some(p.publicKey(kR.ephemeral))
            && i2.sPriv == i1.sPriv && i2.sPub == i1.sPub
            && i2.sym.cipher.n <= 1 && i2.sym.cipher.k.Some?
  {
    var e := p.publicKey(kR.ephemeral);
    var sym := MixedHash(p, r1.sym, e);
    var s2 := MixedDh(p, sym, kR.ephemeral, r1.re.value).value;
    assert MixedDh(p, sym, kI.ephemeral, e) == Some(s2);
    var w := WithEphemeral(p, r1, kR.ephemeral).(sym := s2);
    var r := i1.(sym := s2, re := Some(e));
    StaticAgree(p, w, r, e, w2);
    var m2 := StaticWritten(p, w, e, w2).1.value;
    assert m2[..32] == e;
  }

  lemma Message3Agrees(p: Primitives, kI: Keys, kR: Keys, i2: Party, r2: Party, w3: Bytes)
    requires p.Lawful() && WellSized(kI) && WellSized(kR)
    requires i2.initiator && !r2.initiator && i2.step == r2.step == 2 && i2.sym == r2.sym
    requires Ready(i2) && Ready(r2) && r2.ePriv == Some(kR.ephemeral)
    requires i2.re == Some(p.publicKey(kR.ephemeral)) && i2.sPriv == kI.identity && i2.sPub == p.publicKey(kI.identity)
    requires i2.sym.cipher.n <= 1 && i2.sym.cipher.k.Some?
    ensures var (i3, m3) := Written(p, i2, kI.ephemeral, w3);
            && m3.Ok? && |m3.value| == 64 + |w3| && i3.rs == i2.rs && i3.initiator
            && var (r3, got) := Read(p, r2, m3.value);
            && got == Ok(w3) && r3.sym == i3.sym && r3.rs == Some(i2.sPub) && !r3.initiator
            && IsFinished(i3) && IsFinished(r3)
  {
    StaticAgree(p, i2, r2, [], w3);
    var m3 := StaticWritten(p, i2, [], w3).1.value;
    assert m3[0..48] == m3[..48];
  }

  /** Undisturbed, XX always completes: 32, 96 and 64 bytes plus payload, and both ends agree. */
  lemma HonestRunCompletes(p: Primitives, kI: Keys, kR: Keys, w1: Bytes, w2: Bytes, w3: Bytes)
    requires p.Lawful() && WellSized(kI) && WellSized(kR)
    ensures var m1 := InitiatorOpened(p, kI, w1).1;
            && m1.Ok? && |m1.value| == 32 + |w1|
            && var reply := ResponderAnswer(p, kR, m1.value, w2);
            && reply.Some? && |reply.value.1| == 96 + |w2|
            && var i := InitiatorRun(p, kI, w1, reply.value.1, w3);
            && i.Some? && i.value.m1 == m1.value && |i.value.m3| == 64 + |w3|
            && var r := ResponderRun(p, kR, m1.value, w2, i.value.m3);
            && r.Some? && r.value.m2 == reply.value.1
            && Agreed(p, kI, kR, w1, w2, w3, i.value, r.value)
  {
    hide Written, Read, Start, Hkdf2, Primitives.Lawful;
    Message1Agrees(p, kI, kR, w1);
    var (i1, m1) := InitiatorOpened(p, kI, w1);
    var (r1, _) := Read(p, Start(p, false, kR.identity, p.publicKey(kR.identity)), m1.value);
    Message2Agrees(p, kI, kR, i1, r1, w2);
    var (r2, m2) := Written(p, r1, kR.ephemeral, w2);
    var (i2, _) := Read(p, i1, m2.value);
    Message3Agrees(p, kI, kR, i2, r2, w3);
  }

  // ---- what a finished run has hashed --------------------------------------

  function Transcript(e1: Bytes, c1: Bytes, m2: Bytes, m3: Bytes): seq<Bytes>
    requires |m2| >= 80 && |m3| >= 48
  {
    [Ascii(PROLOGUE), e1, c1, m2[..32], m2[32..80], m2[80..], m3[..48], m3[48..]]
  }

  /** What one cipher call on a SymmetricState mixes in. */
  lemma CallMixes(p: Primitives, s: Sym, text: Bytes)
    ensures var (e, ct) := EncryptedAndHashed(p, s, text);
            && e.cipher.k == s.cipher.k
            && (ct.Ok? ==> e.mixed == s.mixed + [ct.value])
            && (ct.Ok? && p.Lawful() && s.cipher.k.Some? ==> |ct.value| == |text| + TAG_LEN)
    ensures var (d, pt) := DecryptedAndHashed(p, s, text);
            d.cipher.k == s.cipher.k && (pt.Ok? ==> d.mixed == s.mixed + [text])
  {
    if p.Lawful() && s.cipher.k.Some? {
      SealLaw(p, s.cipher.k.value, NonceBytes(s.cipher.n), s.h, text);
    }
    hide Primitives.Lawful, NonceBytes;
  }

  lemma StaticWriteTranscript(p: Primitives, st: Party, prefix: Bytes, payload: Bytes)
    requires p.Lawful() && st.re.Some? && st.sym.cipher.k.Some? && |st.sPub| == KEY_LEN
    ensures var (w, m) := StaticWritten(p, st, prefix, payload);
            m.Ok? ==> |m.value| >= |prefix| + 48 && m.value[..|prefix|] == prefix
                      && w.sym.mixed == st.sym.mixed + [m.value[|prefix|..|prefix| + 48], m.value[|prefix| + 48..]]
                      && w.sym.cipher.k.Some? && w.sPub == st.sPub
  {
    CallMixes(p, st.sym, st.sPub);
    hide Primitives.Lawful, MixedDh, EncryptedAndHashed;
    var (s1, x) := EncryptedAndHashed(p, st.sym, st.sPub);
    var (w, m) := StaticWritten(p, st, prefix, payload);
    if m.Ok? {
      MixedDhOnlyRekeys(p, s1, st.sPriv, st.re.value);
      var z := MixedDh(p, s1, st.sPriv, st.re.value);
      CallMixes(p, z.value, payload);
      var y := EncryptedAndHashed(p, z.value, payload).1.value;
      assert m.value == prefix + x.value + y;
      assert m.value[..|prefix|] == prefix && m.value[|prefix|..|prefix| + 48] == x.value && m.value[|prefix| + 48..] == y;
    }
  }

  lemma StaticReadTranscript(p: Primitives, st: Party, a: Bytes, b: Bytes)
    requires st.ePriv.Some?
    ensures var (r, m) := StaticRead(p, st, a, b);
            m.Ok? ==> r.sym.mixed == st.sym.mixed + [a, b] && r.sym.cipher.k.Some? && r.sPub == st.sPub
  {
    CallMixes(p, st.sym, a);
    hide Primitives.Lawful, MixedDh, DecryptedAndHashed;
    var (s1, rs) := DecryptedAndHashed(p, st.sym, a);
    if rs.Ok? {
      MixedDhOnlyRekeys(p, s1, st.ePriv.value, rs.value);
      var z := MixedDh(p, s1, st.ePriv.value, rs.value);
      if z.Some? {
        CallMixes(p, z.value, b);
      }
    }
  }

  lemma InitiatorReadTranscript(p: Primitives, st: Party, m2: Bytes)
    requires p.Lawful() && Ready(st) && st.initiator && st.step == 1
    ensures var (end, r) := Read(p, st, m2);
            r.Ok? ==> |m2| >= 80 && end.sym.mixed == st.sym.mixed + [m2[..32], m2[32..80], m2[80..]]
                      && end.sym.cipher.k.Some? && end.sPub == st.sPub && end.initiator && end.step == 2
  {
    hide StaticRead, MixedKey;
    if |m2| >= 80 {
      var e := m2[..32];
      var z := MixedDh(p, MixedHash(p, st.sym, e), st.ePriv.value, e);
      if z.Some? {
        MixedDhOnlyRekeys(p, MixedHash(p, st.sym, e), st.ePriv.value, e);
        StaticReadTranscript(p, st.(sym := z.value, re := Some(e)), m2[32..80], m2[80..]);
        StaticReadSteps(p, st.(sym := z.value, re := Some(e)), m2[32..80], m2[80..]);
      }
    }
  }

  lemma ResponderWriteTranscript(p: Primitives, st: Party, ephemeral: Bytes, w2: Bytes)
    requires p.Lawful() && Ready(st) && !st.initiator && st.step == 1 && |st.sPub| == KEY_LEN
    ensures var (end, r) := Written(p, st, ephemeral, w2);
            r.Ok? ==> |r.value| >= 80 && end.sym.mixed == st.sym.mixed + [r.value[..32], r.value[32..80], r.value[80..]]
                      && end.sPub == st.sPub && !end.initiator && end.step == 2
  {
    hide StaticWritten, MixedKey;
    var st1 := WithEphemeral(p, st, ephemeral);
    var z := MixedDh(p, st1.sym, ephemeral, st1.re.value);
    if z.Some? {
      MixedDhOnlyRekeys(p, st1.sym, ephemeral, st1.re.value);
      StaticWriteTranscript(p, st1.(sym := z.value), st1.ePub.value, w2);
      StaticWrittenSteps(p, st1.(sym := z.value), st1.ePub.value, w2);
    }
  }

  lemma MixedDhOnlyRekeys(p: Primitives, s: Sym, private: Bytes, public: Bytes)
    ensures var z := MixedDh(p, s, private, public);
            z.Some? ==> z.value.mixed == s.mixed && z.value.h == s.h && z.value.cipher.k.Some?
  {
  }

  lemma StaticWrittenSteps(p: Primitives, st: Party, a: Bytes, b: Bytes)
    requires st.re.Some?
    ensures var (w, m) := StaticWritten(p, st, a, b);
            w.initiator == st.initiator && (m.Ok? ==> w.step == st.step + 1)
  {
  }

  lemma StaticReadSteps(p: Primitives, st: Party, a: Bytes, b: Bytes)
    requires st.ePriv.Some?
    ensures var (w, m) := StaticRead(p, st, a, b);
            w.initiator == st.initiator && (m.Ok? ==> w.step == st.step + 1)
  {
  }

  lemma OpeningTranscripts(p: Primitives, kI: Keys, kR: Keys, w1: Bytes, m1: Bytes)
    ensures var (i, w) := InitiatorOpened(p, kI, w1);
            && w == Ok(p.publicKey(kI.ephemeral) + w1)
            && i.sym.mixed == [Ascii(PROLOGUE), p.publicKey(kI.ephemeral), w1]
            && i.sPub == p.publicKey(kI.identity) && i.initiator && i.step == 1
    ensures var (r, got) := Read(p, Start(p, false, kR.identity, p.publicKey(kR.identity)), m1);
            got.Ok? ==> |m1| >= 32 && r.sym.mixed == [Ascii(PROLOGUE), m1[..32], m1[32..]]
                        && r.sPub == p.publicKey(kR.identity) && !r.initiator && r.step == 1
  {
  }

  lemma ClosingTranscripts(p: Primitives, i: Party, r: Party, ephemeral: Bytes, w3: Bytes, m3: Bytes)
    requires p.Lawful() && Ready(i) && Ready(r)
    ensures i.initiator && i.step == 2 && |i.sPub| == KEY_LEN && i.sym.cipher.k.Some? ==>
              var (end, w) := Written(p, i, ephemeral, w3);
              w.Ok? ==> |w.value| >= 48 && end.sym.mixed == i.sym.mixed + [w.value[..48], w.value[48..]]
    ensures !r.initiator && r.step == 2 ==>
              var (end, got) := Read(p, r, m3);
              got.Ok? ==> |m3| >= 48 && end.sym.mixed == r.sym.mixed + [m3[..48], m3[48..]]
  {
    hide StaticWritten, StaticRead;
    if i.initiator && i.step == 2 && |i.sPub| == KEY_LEN && i.sym.cipher.k.Some? {
      StaticWriteTranscript(p, i, [], w3);
      var w := Written(p, i, ephemeral, w3).1;
      if w.Ok? {
        assert w.value[0..48] == w.value[..48];
      }
    }
    if !r.initiator && r.step == 2 && |m3| >= 48 {
      StaticReadTranscript(p, r, m3[..48], m3[48..]);
    }
  }

  lemma InitiatorTranscript(p: Primitives, k: Keys, w1: Bytes, m2: Bytes, w3: Bytes)
    requires p.Lawful()
    ensures var i := InitiatorRun(p, k, w1, m2, w3);
            i.Some? ==>
              && i.value.m1 == p.publicKey(k.ephemeral) + w1
              && |m2| >= 80 && |i.value.m3| >= 48
              && i.value.st.sym.mixed == Transcript(p.publicKey(k.ephemeral), w1, m2, i.value.m3)
  {
    hide Written, Read, Start;
    var i := InitiatorRun(p, k, w1, m2, w3);
    if i.Some? {
      OpeningTranscripts(p, k, k, w1, m2);
      var st1 := InitiatorOpened(p, k, w1).0;
      InitiatorReadTranscript(p, st1, m2);
      var st2 := Read(p, st1, m2).0;
      ClosingTranscripts(p, st2, st2, k.ephemeral, w3, m2);
    }
  }

  lemma ResponderTranscript(p: Primitives, k: Keys, m1: Bytes, w2: Bytes, m3: Bytes)
    requires p.Lawful()
    ensures var r := ResponderRun(p, k, m1, w2, m3);
            r.Some? ==>
              && |m1| >= 32 && |r.value.m2| >= 80 && |m3| >= 48
              && r.value.st.sym.mixed == Transcript(m1[..32], m1[32..], r.value.m2, m3)
  {
    hide Written, Read, Start;
    var r := ResponderRun(p, k, m1, w2, m3);
    if r.Some? {
      OpeningTranscripts(p, k, k, w2, m1);
      var st1 := Read(p, Start(p, false, k.identity, p.publicKey(k.identity)), m1).0;
      ResponderWriteTranscript(p, st1, k.ephemeral, w2);
      var st2 := Written(p, st1, k.ephemeral, w2).0;
      ClosingTranscripts(p, st2, st2, k.ephemeral, w2, m3);
    }
  }

  /** The inputs the two runs at hand hash into their handshake hashes. */
  ghost function HashedInputs(p: Primitives, i: InitiatorEnd, r: ResponderEnd): set<Bytes> {
    var start := InitialHash(p, PROTOCOL_NAME);
    ChainInputs(p, start, i.st.sym.mixed) + ChainInputs(p, start, r.st.sym.mixed)
  }

  /**
   * With arbitrary bytes delivered to either side: if both finish, the handshake hashes are equal
   * exactly when every message arrived as written, and then both ends agree on everything.
   */
  lemma EqualHashesMeanUntampered(p: Primitives, kI: Keys, kR: Keys,
                                  w1: Bytes, w2: Bytes, w3: Bytes, m1: Bytes, m2: Bytes, m3: Bytes)
    requires p.Lawful() && WellSized(kI) && WellSized(kR)
    requires InitiatorRun(p, kI, w1, m2, w3).Some? && ResponderRun(p, kR, m1, w2, m3).Some?
    requires CollisionFree(p, HashedInputs(p, InitiatorRun(p, kI, w1, m2, w3).value, ResponderRun(p, kR, m1, w2, m3).value))
    ensures var i := InitiatorRun(p, kI, w1, m2, w3).value;
            var r := ResponderRun(p, kR, m1, w2, m3).value;
            && (i.st.sym.h == r.st.sym.h <==> m1 == i.m1 && m2 == r.m2 && m3 == i.m3)
            && (i.st.sym.h == r.st.sym.h ==> Agreed(p, kI, kR, w1, w2, w3, i, r))
  {
    hide InitiatorRun, ResponderRun, ResponderAnswer, InitiatorOpened, ChainInputs, Chain, InitialHash, Primitives.Lawful, CollisionFree;
    var i := InitiatorRun(p, kI, w1, m2, w3).value;
    var r := ResponderRun(p, kR, m1, w2, m3).value;
    InitiatorTranscript(p, kI, w1, m2, w3);
    ResponderTranscript(p, kR, m1, w2, m3);
    FirstMessageIsFixed(p, kI, w1, m2, w3);
    SecondMessageIsFixed(p, kR, m1, w2, m3);
    HonestRunCompletes(p, kI, kR, w1, w2, w3);
    if i.st.sym.h == r.st.sym.h {
      RunsTrack(p, kI, kR, w1, w2, w3, m1, m2, m3);
      EqualTranscripts(p, p.publicKey(kI.ephemeral), w1, m1, m2, r.m2, i.m3, m3);
    }
  }

  /** Message 1 does not depend on what the initiator is later given. */
  lemma FirstMessageIsFixed(p: Primitives, k: Keys, w1: Bytes, m2: Bytes, w3: Bytes)
    requires InitiatorRun(p, k, w1, m2, w3).Some?
    ensures InitiatorOpened(p, k, w1).1 == Ok(InitiatorRun(p, k, w1, m2, w3).value.m1)
  {
    hide Written, Read;
  }

  /** Message 2 does not depend on message 3. */
  lemma SecondMessageIsFixed(p: Primitives, k: Keys, m1: Bytes, w2: Bytes, m3: Bytes)
    requires ResponderRun(p, k, m1, w2, m3).Some?
    ensures var a := ResponderAnswer(p, k, m1, w2);
            a.Some? && a.value.1 == ResponderRun(p, k, m1, w2, m3).value.m2
  {
    hide Written, Read;
  }

  /** Equal chains of the two transcripts: each delivered message is the one written. */
  lemma EqualTranscripts(p: Primitives, e1: Bytes, w1: Bytes, m1: Bytes, m2: Bytes, m2': Bytes, m3: Bytes, m3': Bytes)
    requires p.Lawful() && |m1| >= 32 && |m2| >= 80 && |m2'| >= 80 && |m3| >= 48 && |m3'| >= 48
    requires var start := InitialHash(p, PROTOCOL_NAME);
             var a, b := Transcript(e1, w1, m2, m3), Transcript(m1[..32], m1[32..], m2', m3');
             && |start| == HASH_LEN
             && CollisionFree(p, ChainInputs(p, start, a) + ChainInputs(p, start, b))
             && Chain(p, start, a) == Chain(p, start, b)
    ensures m1 == e1 + w1 && m2 == m2' && m3 == m3'
  {
    var start := InitialHash(p, PROTOCOL_NAME);
    var a, b := Transcript(e1, w1, m2, m3), Transcript(m1[..32], m1[32..], m2', m3');
    ChainInjective(p, start, a, b);
    hide Primitives.Lawful, Chain, ChainInputs, CollisionFree, InitialHash;
    assert a[1] == b[1] && a[2] == b[2];
    assert m1 == m1[..32] + m1[32..];
    assert a[3] == b[3] && a[4] == b[4] && a[5] == b[5];
    SameThirds(m2, m2');
    assert a[6] == b[6] && a[7] == b[7];
    assert m3 == m3[..48] + m3[48..] && m3' == m3'[..48] + m3'[48..];
  }

  lemma SameThirds(m: Bytes, m': Bytes)
    requires |m| >= 80 && |m'| >= 80 && m[..32] == m'[..32] && m[32..80] == m'[32..80] && m[80..] == m'[80..]
    ensures m == m'
  {
    assert m == m[..32] + m[32..80] + m[80..] && m' == m'[..32] + m'[32..80] + m'[80..];
  }

  /** Both finished runs' hashes are the chains of their transcripts. */
  lemma RunsTrack(p: Primitives, kI: Keys, kR: Keys,
                  w1: Bytes, w2: Bytes, w3: Bytes, m1: Bytes, m2: Bytes, m3: Bytes)
    requires p.Lawful()
    requires InitiatorRun(p, kI, w1, m2, w3).Some? && ResponderRun(p, kR, m1, w2, m3).Some?
    ensures var i := InitiatorRun(p, kI, w1, m2, w3).value.st.sym; i.h == Chain(p, InitialHash(p, PROTOCOL_NAME), i.mixed)
    ensures var r := ResponderRun(p, kR, m1, w2, m3).value.st.sym; r.h == Chain(p, InitialHash(p, PROTOCOL_NAME), r.mixed)
    ensures |InitialHash(p, PROTOCOL_NAME)| == HASH_LEN
  {
    InitialHashLength(p);
    hide Primitives.Lawful, Written, Read, NonceDiscipline;
    var i0 := Start(p, true, kI.identity, p.publicKey(kI.identity));
    var i1 := Answer(p, i0, Write(kI.ephemeral, w1)).0;
    var i2 := Answer(p, i1, ReadIn(m2)).0;
    StartIsSound(p, true, kI.identity, p.publicKey(kI.identity));
    AnswerKeepsSound(p, i0, Write(kI.ephemeral, w1));
    AnswerKeepsSound(p, i1, ReadIn(m2));
    AnswerKeepsSound(p, i2, Write(kI.ephemeral, w3));
    var r0 := Start(p, false, kR.identity, p.publicKey(kR.identity));
    var r1 := Answer(p, r0, ReadIn(m1)).0;
    var r2 := Answer(p, r1, Write(kR.ephemeral, w2)).0;
    StartIsSound(p, false, kR.identity, p.publicKey(kR.identity));
    AnswerKeepsSound(p, r0, ReadIn(m1));
    AnswerKeepsSound(p, r1, Write(kR.ephemeral, w2));
    AnswerKeepsSound(p, r2, ReadIn(m3));
  }
}
